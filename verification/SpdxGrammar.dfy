/**
 The grammar itself, as a relation between token sequences and trees, and the parser's soundness
 and completeness for it.  The starred tails are read as left recursion, which yields the same
 sequences and fixes the tree as the left-associated one.
 */
module SpdxGrammar {
  import opened SpdxParser

  ghost predicate DerivesOr(s: seq<string>, t: Ast)
    decreases |s|, 3
  {
    DerivesAnd(s, t) || (t.Or? && exists k :: 0 <= k < |s| && SplitsOr(s, k, t))
  }

  ghost predicate SplitsOr(s: seq<string>, k: nat, t: Ast)
    requires k < |s| && t.Or?
    decreases |s|, 0
  {
    Kind(s[k]) == OrWord && DerivesOr(s[..k], t.left) && DerivesAnd(s[k + 1..], t.right)
  }

  ghost predicate DerivesAnd(s: seq<string>, t: Ast)
    decreases |s|, 2
  {
    DerivesWith(s, t) || (t.And? && exists k :: 0 <= k < |s| && SplitsAnd(s, k, t))
  }

  ghost predicate SplitsAnd(s: seq<string>, k: nat, t: Ast)
    requires k < |s| && t.And?
    decreases |s|, 0
  {
    Kind(s[k]) == AndWord && DerivesAnd(s[..k], t.left) && DerivesWith(s[k + 1..], t.right)
  }

  ghost predicate DerivesWith(s: seq<string>, t: Ast)
    decreases |s|, 1
  {
    || DerivesAtom(s, t)
    || (t.With? && |s| >= 2 && Kind(s[|s| - 2]) == WithWord
        && Kind(s[|s| - 1]) == Identifier && s[|s| - 1] == t.exception
        && DerivesAtom(s[..|s| - 2], t.license))
  }

  ghost predicate DerivesAtom(s: seq<string>, t: Ast)
    decreases |s|, 0
  {
    || (|s| == 1 && Kind(s[0]) == Identifier && t == Id(s[0]))
    || (|s| >= 2 && Kind(s[0]) == LParen && Kind(s[|s| - 1]) == RParen && DerivesOr(s[1..|s| - 1], t))
  }

  // ---------------------------------------------------------------- soundness

  lemma {:induction false} Glue(ts: seq<string>, a: seq<string>, mid: seq<string>, b: seq<string>, rest: seq<string>)
    requires ts == a + mid && mid == b + rest
    ensures ts == (a + b) + rest
  {
  }

  lemma {:induction false} OrSound(ts: seq<string>) returns (s: seq<string>)
    requires OrExpr(ts).Done?
    ensures ts == s + OrExpr(ts).rest && DerivesOr(s, OrExpr(ts).node)
    decreases |ts|, 3
  {
    var first := AndSound(ts);
    var operand := AndExpr(ts);
    var more := OrTailSound(first, operand.node, operand.rest);
    s := first + more;
    var r := OrExpr(ts);
    assert r == OrTail(operand.node, operand.rest);
    Glue(ts, first, operand.rest, more, r.rest);
  }

  lemma {:induction false} OrTailSound(done: seq<string>, left: Ast, ts: seq<string>) returns (s: seq<string>)
    requires DerivesOr(done, left) && OrTail(left, ts).Done?
    ensures ts == s + OrTail(left, ts).rest && DerivesOr(done + s, OrTail(left, ts).node)
    decreases |ts|, 0
  {
    if Starts(ts, OrWord) {
      var next := AndExpr(ts[1..]);
      var operand := AndSound(ts[1..]);
      OrJoined(done, ts[0], operand, Or(left, next.node));
      var more := OrTailSound(done + ([ts[0]] + operand), Or(left, next.node), next.rest);
      s := [ts[0]] + operand + more;
      var r := OrTail(left, ts);
      assert r == OrTail(Or(left, next.node), next.rest);
      assert done + ([ts[0]] + operand) + more == done + s;
      Glue(ts, [ts[0]], ts[1..], operand, next.rest);
      Glue(ts, [ts[0]] + operand, next.rest, more, r.rest);
    } else {
      s := [];
      assert done + s == done;
    }
  }

  lemma {:induction false} OrJoined(l: seq<string>, word: string, r: seq<string>, t: Ast)
    requires t.Or? && Kind(word) == OrWord && DerivesOr(l, t.left) && DerivesAnd(r, t.right)
    ensures DerivesOr(l + ([word] + r), t)
  {
    var s := l + ([word] + r);
    assert s[..|l|] == l && s[|l| + 1..] == r;
    assert SplitsOr(s, |l|, t);
  }

  lemma {:induction false} AndSound(ts: seq<string>) returns (s: seq<string>)
    requires AndExpr(ts).Done?
    ensures ts == s + AndExpr(ts).rest && DerivesAnd(s, AndExpr(ts).node)
    decreases |ts|, 2
  {
    var first := WithSound(ts);
    var operand := WithExpr(ts);
    var more := AndTailSound(first, operand.node, operand.rest);
    s := first + more;
    var r := AndExpr(ts);
    assert r == AndTail(operand.node, operand.rest);
    Glue(ts, first, operand.rest, more, r.rest);
  }

  lemma {:induction false} AndTailSound(done: seq<string>, left: Ast, ts: seq<string>) returns (s: seq<string>)
    requires DerivesAnd(done, left) && AndTail(left, ts).Done?
    ensures ts == s + AndTail(left, ts).rest && DerivesAnd(done + s, AndTail(left, ts).node)
    decreases |ts|, 0
  {
    if Starts(ts, AndWord) {
      var next := WithExpr(ts[1..]);
      var operand := WithSound(ts[1..]);
      AndJoined(done, ts[0], operand, And(left, next.node));
      var more := AndTailSound(done + ([ts[0]] + operand), And(left, next.node), next.rest);
      s := [ts[0]] + operand + more;
      var r := AndTail(left, ts);
      assert r == AndTail(And(left, next.node), next.rest);
      assert done + ([ts[0]] + operand) + more == done + s;
      Glue(ts, [ts[0]], ts[1..], operand, next.rest);
      Glue(ts, [ts[0]] + operand, next.rest, more, r.rest);
    } else {
      s := [];
      assert done + s == done;
    }
  }

  lemma {:induction false} AndJoined(l: seq<string>, word: string, r: seq<string>, t: Ast)
    requires t.And? && Kind(word) == AndWord && DerivesAnd(l, t.left) && DerivesWith(r, t.right)
    ensures DerivesAnd(l + ([word] + r), t)
  {
    var s := l + ([word] + r);
    assert s[..|l|] == l && s[|l| + 1..] == r;
    assert SplitsAnd(s, |l|, t);
  }

  lemma {:induction false} WithSound(ts: seq<string>) returns (s: seq<string>)
    requires WithExpr(ts).Done?
    ensures ts == s + WithExpr(ts).rest && DerivesWith(s, WithExpr(ts).node)
    decreases |ts|, 1
  {
    s := AtomSound(ts);
    var after := Atom(ts).rest;
    if Starts(after, WithWord) {
      WithJoined(s, after[0], after[1], Atom(ts).node);
      s := s + after[..2];
    }
  }

  lemma {:induction false} WithJoined(l: seq<string>, word: string, exception: string, t: Ast)
    requires Kind(word) == WithWord && Kind(exception) == Identifier && DerivesAtom(l, t)
    ensures DerivesWith(l + [word, exception], With(t, exception))
  {
    assert (l + [word, exception])[..|l|] == l;
  }

  lemma {:induction false} AtomSound(ts: seq<string>) returns (s: seq<string>)
    requires Atom(ts).Done?
    ensures ts == s + Atom(ts).rest && DerivesAtom(s, Atom(ts).node)
    decreases |ts|, 0
  {
    if Kind(ts[0]) == LParen {
      var inner := OrSound(ts[1..]);
      var after := OrExpr(ts[1..]).rest;
      Parenthesised(ts[0], inner, after[0], OrExpr(ts[1..]).node);
      s := [ts[0]] + inner + [after[0]];
    } else {
      s := [ts[0]];
    }
  }

  lemma {:induction false} Parenthesised(open: string, inner: seq<string>, close: string, t: Ast)
    requires Kind(open) == LParen && Kind(close) == RParen && DerivesOr(inner, t)
    ensures DerivesAtom([open] + inner + [close], t)
  {
    var s := [open] + inner + [close];
    assert s[1..|s| - 1] == inner;
  }

  // ---------------------------------------------------------------- completeness

  lemma {:induction false} OrComplete(s: seq<string>, t: Ast, rest: seq<string>)
    requires DerivesOr(s, t) && !Starts(rest, WithWord) && !Starts(rest, AndWord)
    ensures OrExpr(s + rest) == OrTail(t, rest)
    decreases |s|, 3
  {
    if DerivesAnd(s, t) {
      AndComplete(s, t, rest);
    } else {
      var k :| 0 <= k < |s| && SplitsOr(s, k, t);
      var after := s[k..] + rest;
      assert s + rest == s[..k] + after;
      OrComplete(s[..k], t.left, after);
      assert after[0] == s[k] && after[1..] == s[k + 1..] + rest;
      AndComplete(s[k + 1..], t.right, rest);
      assert AndExpr(after[1..]) == Done(t.right, rest);
      assert OrTail(t.left, after) == OrTail(Or(t.left, t.right), rest);
    }
  }

  lemma {:induction false} AndComplete(s: seq<string>, t: Ast, rest: seq<string>)
    requires DerivesAnd(s, t) && !Starts(rest, WithWord)
    ensures AndExpr(s + rest) == AndTail(t, rest)
    decreases |s|, 2
  {
    if DerivesWith(s, t) {
      WithComplete(s, t, rest);
    } else {
      var k :| 0 <= k < |s| && SplitsAnd(s, k, t);
      var after := s[k..] + rest;
      assert s + rest == s[..k] + after;
      AndComplete(s[..k], t.left, after);
      assert after[0] == s[k] && after[1..] == s[k + 1..] + rest;
      WithComplete(s[k + 1..], t.right, rest);
      assert AndTail(t.left, after) == AndTail(And(t.left, t.right), rest);
    }
  }

  lemma {:induction false} WithComplete(s: seq<string>, t: Ast, rest: seq<string>)
    requires DerivesWith(s, t) && !Starts(rest, WithWord)
    ensures WithExpr(s + rest) == Done(t, rest)
    decreases |s|, 1
  {
    if DerivesAtom(s, t) {
      AtomComplete(s, t, rest);
    } else {
      var n := |s| - 2;
      var after := s[n..] + rest;
      assert s + rest == s[..n] + after;
      AtomComplete(s[..n], t.license, after);
      assert after[2..] == rest;
    }
  }

  lemma {:induction false} AtomComplete(s: seq<string>, t: Ast, rest: seq<string>)
    requires DerivesAtom(s, t)
    ensures Atom(s + rest) == Done(t, rest)
    decreases |s|, 0
  {
    if |s| == 1 {
      assert (s + rest)[1..] == rest;
    } else {
      var inner, after := s[1..|s| - 1], [s[|s| - 1]] + rest;
      assert (s + rest)[1..] == inner + after;
      OrComplete(inner, t, after);
      assert after[1..] == rest;
    }
  }

  // ---------------------------------------------------------------- main results

  /** The parser accepts exactly the sequences of the grammar, with the grammar's tree. */
  lemma {:induction false} ParserIsGrammar(ts: seq<string>, t: Ast)
    ensures Parse(ts) == Ok(t) <==> DerivesOr(ts, t)
  {
    if Parse(ts) == Ok(t) {
      var s := OrSound(ts);
      assert s == ts;
    }
    if DerivesOr(ts, t) {
      OrComplete(ts, t, []);
      assert ts + [] == ts;
    }
  }

  /** The grammar is unambiguous. */
  lemma {:induction false} Unambiguous(ts: seq<string>, t: Ast, u: Ast)
    requires DerivesOr(ts, t) && DerivesOr(ts, u)
    ensures t == u
  {
    ParserIsGrammar(ts, t);
    ParserIsGrammar(ts, u);
  }
}
