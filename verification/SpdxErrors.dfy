/**
 What the parser's errors mean.  It reports the end of the expression exactly when the tokens are the
 beginning of some expression; any other error is final, whatever might follow.
 */
module SpdxErrors {
  import opened SpdxParser
  import opened SpdxGrammar

  /** The tokens read before `more` are read the same way with it. */
  predicate Extends(r: Parsed, more: seq<string>, q: Parsed) {
    match r
    case Done(node, rest) => (rest != [] || Starts(more, RParen)) ==> q == Done(node, rest + more)
    case Failed(e) => e != UnexpectedEnd ==> q == r
  }

  // ---------------------------------------------------------------- what follows is not looked at

  lemma {:induction false} OrExtends(ts: seq<string>, more: seq<string>)
    ensures Extends(OrExpr(ts), more, OrExpr(ts + more))
    decreases |ts|, 3
  {
    var first := AndExpr(ts);
    AndExtends(ts, more);
    if first.Done? {
      OrTailExtends(first.node, first.rest, more);
    }
  }

  lemma {:induction false} OrTailExtends(left: Ast, ts: seq<string>, more: seq<string>)
    ensures Extends(OrTail(left, ts), more, OrTail(left, ts + more))
    decreases |ts|, 0
  {
    if Starts(ts, OrWord) {
      var next := AndExpr(ts[1..]);
      assert (ts + more)[1..] == ts[1..] + more;
      AndExtends(ts[1..], more);
      if next.Done? {
        OrTailExtends(Or(left, next.node), next.rest, more);
      }
    }
  }

  lemma {:induction false} AndExtends(ts: seq<string>, more: seq<string>)
    ensures Extends(AndExpr(ts), more, AndExpr(ts + more))
    decreases |ts|, 2
  {
    var first := WithExpr(ts);
    WithExtends(ts, more);
    if first.Done? {
      AndTailExtends(first.node, first.rest, more);
    }
  }

  lemma {:induction false} AndTailExtends(left: Ast, ts: seq<string>, more: seq<string>)
    ensures Extends(AndTail(left, ts), more, AndTail(left, ts + more))
    decreases |ts|, 0
  {
    if Starts(ts, AndWord) {
      var next := WithExpr(ts[1..]);
      assert (ts + more)[1..] == ts[1..] + more;
      WithExtends(ts[1..], more);
      if next.Done? {
        AndTailExtends(And(left, next.node), next.rest, more);
      }
    }
  }

  lemma {:induction false} WithExtends(ts: seq<string>, more: seq<string>)
    ensures Extends(WithExpr(ts), more, WithExpr(ts + more))
    decreases |ts|, 1
  {
    var atom := Atom(ts);
    AtomExtends(ts, more);
    if atom.Done? && |atom.rest| >= 2 {
      assert (atom.rest + more)[2..] == atom.rest[2..] + more;
    }
  }

  lemma {:induction false} AtomExtends(ts: seq<string>, more: seq<string>)
    ensures Extends(Atom(ts), more, Atom(ts + more))
    decreases |ts|, 0
  {
    if ts != [] {
      assert (ts + more)[0] == ts[0] && (ts + more)[1..] == ts[1..] + more;
      if Kind(ts[0]) == LParen {
        var inner := OrExpr(ts[1..]);
        OrExtends(ts[1..], more);
        if inner.Done? && inner.rest != [] {
          assert (inner.rest + more)[1..] == inner.rest[1..] + more;
        }
      }
    }
  }

  // ---------------------------------------------------------------- an unfinished expression can be finished

  /** Read to the end. */
  predicate Complete(r: Parsed) {
    r.Done? && r.rest == []
  }

  lemma {:induction false} OrFinish(ts: seq<string>) returns (more: seq<string>)
    requires OrExpr(ts) == Failed(UnexpectedEnd)
    ensures Complete(OrExpr(ts + more))
    decreases |ts|, 3
  {
    var first := AndExpr(ts);
    if first.Failed? {
      more := AndFinish(ts);
    } else {
      more := OrTailFinish(first.node, first.rest);
      AndExtends(ts, more);
    }
  }

  lemma {:induction false} OrTailFinish(left: Ast, ts: seq<string>) returns (more: seq<string>)
    requires OrTail(left, ts) == Failed(UnexpectedEnd)
    ensures Complete(OrTail(left, ts + more))
    decreases |ts|, 0
  {
    var next := AndExpr(ts[1..]);
    if next.Failed? {
      more := AndFinish(ts[1..]);
    } else {
      more := OrTailFinish(Or(left, next.node), next.rest);
      AndExtends(ts[1..], more);
    }
    assert (ts + more)[1..] == ts[1..] + more;
  }

  lemma {:induction false} AndFinish(ts: seq<string>) returns (more: seq<string>)
    requires AndExpr(ts) == Failed(UnexpectedEnd)
    ensures Complete(AndExpr(ts + more))
    decreases |ts|, 2
  {
    var first := WithExpr(ts);
    if first.Failed? {
      more := WithFinish(ts);
    } else {
      more := AndTailFinish(first.node, first.rest);
      WithExtends(ts, more);
    }
  }

  lemma {:induction false} AndTailFinish(left: Ast, ts: seq<string>) returns (more: seq<string>)
    requires AndTail(left, ts) == Failed(UnexpectedEnd)
    ensures Complete(AndTail(left, ts + more))
    decreases |ts|, 0
  {
    var next := WithExpr(ts[1..]);
    if next.Failed? {
      more := WithFinish(ts[1..]);
    } else {
      more := AndTailFinish(And(left, next.node), next.rest);
      WithExtends(ts[1..], more);
    }
    assert (ts + more)[1..] == ts[1..] + more;
  }

  lemma {:induction false} WithFinish(ts: seq<string>) returns (more: seq<string>)
    requires WithExpr(ts) == Failed(UnexpectedEnd)
    ensures Complete(WithExpr(ts + more))
    decreases |ts|, 1
  {
    var atom := Atom(ts);
    if atom.Failed? {
      more := AtomFinish(ts);
    } else {
      more := ["x"];
      AtomExtends(ts, more);
      assert atom.rest + more == [atom.rest[0], "x"];
    }
  }

  lemma {:induction false} AtomFinish(ts: seq<string>) returns (more: seq<string>)
    requires Atom(ts) == Failed(UnexpectedEnd)
    ensures Complete(Atom(ts + more))
    decreases |ts|, 0
  {
    if ts == [] {
      more := ["x"];
      assert ts + more == more && more[1..] == [];
    } else {
      var inner := OrExpr(ts[1..]);
      var first := [];
      if inner.Failed? {
        first := OrFinish(ts[1..]);
      } else {
        assert ts[1..] + [] == ts[1..];
      }
      more := first + [")"];
      CloseParen(ts, first, more);
    }
  }

  /** A closing parenthesis ends what was read to the end. */
  lemma {:induction false} CloseParen(ts: seq<string>, first: seq<string>, more: seq<string>)
    requires ts != [] && Kind(ts[0]) == LParen && Complete(OrExpr(ts[1..] + first)) && more == first + [")"]
    ensures Complete(Atom(ts + more))
  {
    var all := ts + more;
    assert all[0] == ts[0] && all[1..] == (ts[1..] + first) + [")"];
    OrExtends(ts[1..] + first, [")"]);
    assert [] + [")"] == [")"] && [")"][1..] == [];
  }

  // ---------------------------------------------------------------- the theorem

  /** Any error but the end of the expression stays the same whatever follows. */
  lemma {:induction false} ErrorIsFinal(ts: seq<string>, more: seq<string>)
    requires Parse(ts).Err? && Parse(ts).error != UnexpectedEnd
    ensures Parse(ts + more) == Parse(ts)
  {
    OrExtends(ts, more);
    var r := OrExpr(ts);
    if r.Done? {
      assert (r.rest + more)[0] == r.rest[0];
    }
  }

  ghost predicate CanBeFinished(ts: seq<string>) {
    exists more, t :: DerivesOr(ts + more, t)
  }

  /**
   For every token sequence: the parser reports the end of the expression if and only if the tokens
   are no expression themselves but the beginning of one.
   */
  lemma {:induction false} UnexpectedEndMeaning(ts: seq<string>)
    ensures Parse(ts) == Err(UnexpectedEnd) <==> !Parse(ts).Ok? && CanBeFinished(ts)
  {
    if Parse(ts) == Err(UnexpectedEnd) {
      var more := OrFinish(ts);
      var t := OrExpr(ts + more).node;
      ParserIsGrammar(ts + more, t);
    } else if Parse(ts).Err? {
      forall more, t ensures !DerivesOr(ts + more, t) {
        ErrorIsFinal(ts, more);
        ParserIsGrammar(ts + more, t);
      }
    }
  }

  /** A trailing token is one that comes right after a whole expression. */
  lemma {:induction false} TrailingMeaning(ts: seq<string>, token: string)
    requires Parse(ts) == Err(TrailingToken(token))
    ensures exists k, t :: 0 <= k < |ts| && ts[k] == token && DerivesOr(ts[..k], t)
  {
    var s := OrSound(ts);
    var r := OrExpr(ts);
    assert ts[|s|] == r.rest[0] && ts[..|s|] == s;
  }

  // ---------------------------------------------------------------- where an error stands

  /** An operand has to come: at the start, after an opening parenthesis and after AND and OR. */
  predicate OperandDue(ts: seq<string>, k: nat)
    requires k < |ts|
  {
    k == 0 || Kind(ts[k - 1]) in {LParen, AndWord, OrWord}
  }

  /** An operand has just ended. */
  predicate OperandDone(ts: seq<string>, k: nat)
    requires k < |ts|
  {
    k > 0 && Kind(ts[k - 1]) in {Identifier, RParen}
  }

  /** The token at k is the one the error complains of. */
  predicate Blames(ts: seq<string>, k: nat, e: ParseError)
    requires k < |ts|
  {
    match e
    case UnexpectedToken(t) => ts[k] == t && OperandDue(ts, k) && Kind(t) !in {Identifier, LParen}
    case ExpectedException => k > 0 && Kind(ts[k - 1]) == WithWord && Kind(ts[k]) != Identifier
    case ExpectedClosing => OperandDone(ts, k) && Kind(ts[k]) in {Identifier, LParen, WithWord}
    case _ => false
  }

  /** Something was read, it ended with an operand, and `stops` says what does not come next. */
  ghost predicate Read(ts: seq<string>, r: Parsed, stops: set<TokenKind>) {
    && r.Done? && |r.rest| < |ts| && r.rest == ts[|ts| - |r.rest|..]
    && Kind(ts[|ts| - |r.rest| - 1]) in {Identifier, RParen}
    && (r.rest != [] ==> Kind(r.rest[0]) !in stops)
  }

  /** What the tokens of a suffix are blamed for, they are blamed for in the whole. */
  lemma {:induction false} BlamesLater(ts: seq<string>, n: nat, k: nat, e: ParseError)
    requires n + k < |ts| && Blames(ts[n..], k, e)
    requires k == 0 ==> n > 0 && Kind(ts[n - 1]) in {LParen, AndWord, OrWord}
    ensures Blames(ts, n + k, e)
  {
    assert ts[n..][k] == ts[n + k];
    if k > 0 {
      assert ts[n..][k - 1] == ts[n + k - 1];
    }
  }

  /** A tail goes on from what was read before it. */
  lemma {:induction false} ReadOn(ts: seq<string>, first: Parsed, r: Parsed, s1: set<TokenKind>, s2: set<TokenKind>)
    requires Read(ts, first, s1) && r.Done?
    requires Read(first.rest, r, s2) || (r.rest == first.rest && (r.rest != [] ==> Kind(r.rest[0]) !in s2))
    ensures Read(ts, r, s2)
  {
    if r.rest != first.rest {
      assert first.rest[|first.rest| - |r.rest|..] == ts[|ts| - |r.rest|..];
      assert first.rest[|first.rest| - |r.rest| - 1] == ts[|ts| - |r.rest| - 1];
    }
  }

  /** What was read behind a first token. */
  lemma {:induction false} ReadBehind(ts: seq<string>, r: Parsed, stops: set<TokenKind>)
    requires ts != [] && Read(ts[1..], r, stops)
    ensures Read(ts, r, stops)
  {
    assert ts[1..][|ts[1..]| - |r.rest|..] == ts[|ts| - |r.rest|..];
    assert ts[1..][|ts[1..]| - |r.rest| - 1] == ts[|ts| - |r.rest| - 1];
  }

  ghost predicate Blamed(ts: seq<string>, r: Parsed) {
    r.Failed? && r.error != UnexpectedEnd ==> exists k :: 0 <= k < |ts| && Blames(ts, k, r.error)
  }

  /** The same for a tail, whose own first token is never to blame. */
  ghost predicate BlamedInside(ts: seq<string>, r: Parsed) {
    r.Failed? && r.error != UnexpectedEnd ==> exists k :: 0 < k < |ts| && Blames(ts, k, r.error)
  }

  lemma {:induction false} BlamedBehind(ts: seq<string>, r: Parsed)
    requires ts != [] && Kind(ts[0]) in {LParen, AndWord, OrWord} && Blamed(ts[1..], r)
    ensures BlamedInside(ts, r)
  {
    if r.Failed? && r.error != UnexpectedEnd {
      var k :| 0 <= k < |ts[1..]| && Blames(ts[1..], k, r.error);
      BlamesLater(ts, 1, k, r.error);
    }
  }

  lemma {:induction false} BlamedAfter(ts: seq<string>, n: nat, r: Parsed)
    requires n <= |ts| && BlamedInside(ts[n..], r)
    ensures BlamedInside(ts, r)
  {
    if r.Failed? && r.error != UnexpectedEnd {
      var k :| 0 < k < |ts[n..]| && Blames(ts[n..], k, r.error);
      BlamesLater(ts, n, k, r.error);
    }
  }

  /** One operator and its operand, then the tail behind them. */
  lemma {:induction false} TailPlace(ts: seq<string>, next: Parsed, r: Parsed, s1: set<TokenKind>, s2: set<TokenKind>)
    requires ts != [] && Kind(ts[0]) in {AndWord, OrWord} && Blamed(ts[1..], next)
    requires if next.Failed? then r == next else Read(ts[1..], next, s1) && BlamedInside(next.rest, r)
    requires next.Done? && r.Done? ==>
      Read(next.rest, r, s2) || (r.rest == next.rest && (r.rest != [] ==> Kind(r.rest[0]) !in s2))
    ensures BlamedInside(ts, r) && (r.Done? ==> Read(ts, r, s2))
  {
    BlamedBehind(ts, next);
    if next.Done? {
      ReadBehind(ts, next, s1);
      BlamedAfter(ts, |ts| - |next.rest|, r);
      if r.Done? {
        ReadOn(ts, next, r, s1, s2);
      }
    }
  }

  lemma {:induction false} OrPlace(ts: seq<string>)
    ensures var r := OrExpr(ts); Blamed(ts, r) && (r.Done? ==> Read(ts, r, {OrWord, AndWord}))
    decreases |ts|, 3
  {
    var first, r := AndExpr(ts), OrExpr(ts);
    AndPlace(ts);
    if first.Done? {
      OrTailPlace(first.node, first.rest);
      BlamedAfter(ts, |ts| - |first.rest|, r);
      if r.Done? {
        ReadOn(ts, first, r, {AndWord}, {OrWord, AndWord});
      }
    }
  }

  lemma {:induction false} OrTailPlace(left: Ast, ts: seq<string>)
    requires !Starts(ts, AndWord)
    ensures var r := OrTail(left, ts);
      && BlamedInside(ts, r)
      && (r.Done? ==> Read(ts, r, {OrWord, AndWord}) || (r.rest == ts && !Starts(ts, OrWord)))
    decreases |ts|, 0
  {
    if Starts(ts, OrWord) {
      var next, r := AndExpr(ts[1..]), OrTail(left, ts);
      AndPlace(ts[1..]);
      if next.Done? {
        OrTailPlace(Or(left, next.node), next.rest);
      }
      TailPlace(ts, next, r, {AndWord}, {OrWord, AndWord});
    }
  }

  lemma {:induction false} AndPlace(ts: seq<string>)
    ensures var r := AndExpr(ts); Blamed(ts, r) && (r.Done? ==> Read(ts, r, {AndWord}))
    decreases |ts|, 2
  {
    var first, r := WithExpr(ts), AndExpr(ts);
    WithPlace(ts);
    if first.Done? {
      AndTailPlace(first.node, first.rest);
      BlamedAfter(ts, |ts| - |first.rest|, r);
      if r.Done? {
        ReadOn(ts, first, r, {}, {AndWord});
      }
    }
  }

  lemma {:induction false} AndTailPlace(left: Ast, ts: seq<string>)
    ensures var r := AndTail(left, ts);
      && BlamedInside(ts, r)
      && (r.Done? ==> Read(ts, r, {AndWord}) || (r.rest == ts && !Starts(ts, AndWord)))
    decreases |ts|, 0
  {
    if Starts(ts, AndWord) {
      var next, r := WithExpr(ts[1..]), AndTail(left, ts);
      WithPlace(ts[1..]);
      if next.Done? {
        AndTailPlace(And(left, next.node), next.rest);
      }
      TailPlace(ts, next, r, {}, {AndWord});
    }
  }

  lemma {:induction false} WithPlace(ts: seq<string>)
    ensures var r := WithExpr(ts); Blamed(ts, r) && (r.Done? ==> Read(ts, r, {}))
    decreases |ts|, 1
  {
    var atom := Atom(ts);
    AtomPlace(ts);
    if atom.Done? && Starts(atom.rest, WithWord) && |atom.rest| > 1 {
      var n := |ts| - |atom.rest|;
      assert ts[n] == atom.rest[0] && ts[n + 1] == atom.rest[1];
      if Kind(ts[n + 1]) == Identifier {
        assert atom.rest[2..] == ts[n + 2..];
      } else {
        assert Blames(ts, n + 1, ExpectedException);
      }
    }
  }

  lemma {:induction false} AtomPlace(ts: seq<string>)
    ensures var r := Atom(ts); Blamed(ts, r) && (r.Done? ==> Read(ts, r, {}))
    decreases |ts|, 0
  {
    if ts == [] {
    } else if Kind(ts[0]) == LParen {
      var inner := OrExpr(ts[1..]);
      OrPlace(ts[1..]);
      BlamedBehind(ts, inner);
      if inner.Done? && inner.rest != [] {
        ReadBehind(ts, inner, {OrWord, AndWord});
        var n := |ts| - |inner.rest|;
        assert ts[n] == inner.rest[0];
        if Kind(ts[n]) == RParen {
          assert inner.rest[1..] == ts[n + 1..];
        } else {
          assert Blames(ts, n, ExpectedClosing);
        }
      }
    } else if Kind(ts[0]) != Identifier {
      assert Blames(ts, 0, UnexpectedToken(ts[0]));
    }
  }

  /**
   For every token sequence and every error but the end of the expression there is a token to blame:
   one that cannot start an operand where one is due, one that is no identifier after WITH, one that
   goes on where a parenthesis should close, or one that trails a whole expression.
   */
  lemma {:induction false} ErrorMeaning(ts: seq<string>)
    requires Parse(ts).Err? && Parse(ts).error != UnexpectedEnd
    ensures var e := Parse(ts).error;
      exists k :: 0 <= k < |ts| &&
        if e.TrailingToken? then ts[k] == e.token && OperandDone(ts, k) && Kind(ts[k]) !in {OrWord, AndWord}
        else Blames(ts, k, e)
  {
    var r := OrExpr(ts);
    OrPlace(ts);
    if r.Done? {
      var n := |ts| - |r.rest|;
      assert ts[n] == r.rest[0];
    }
  }
}
