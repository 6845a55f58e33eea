/**
 The scope painting of the getattr justification checker: each function paints its lines with its
 own start, in the order of the tree walk, and the verdict on a call looks back to the start
 painted on its line.
 */
module ScopeChecker {
  import opened Basics

  /** The first and last line of a function definition. */
  datatype Span = Span(start: nat, end: nat)

  predicate Contains(s: Span, line: int) {
    s.start <= line <= s.end
  }

  /** The start of the last span, in walk order, that contains the line. */
  function LastStart(spans: seq<Span>, line: int): Option<nat> {
    if spans == [] then None
    else if Contains(spans[|spans| - 1], line) then Some(spans[|spans| - 1].start)
    else LastStart(spans[..|spans| - 1], line)
  }

  function Lookup(m: map<int, nat>, line: int): Option<nat> {
    if line in m then Some(m[line]) else None
  }

  /** What is on a line once the lines from start up to n carry `start`. */
  function Painted(before: map<int, nat>, start: nat, n: nat, line: int): Option<nat> {
    if start <= line < n then Some(start) else Lookup(before, line)
  }

  /** The nested loops that fill scope_starts. */
  method PaintScopes(spans: seq<Span>) returns (starts: map<int, nat>)
    ensures forall line :: Lookup(starts, line) == LastStart(spans, line)
  {
    starts := map[];
    for i := 0 to |spans|
      invariant forall line :: Lookup(starts, line) == LastStart(spans[..i], line)
    {
      var s := spans[i];
      ghost var before := starts;
      var n := s.start;
      while n <= s.end
        invariant n == s.start || s.start <= n <= s.end + 1
        invariant forall line :: Lookup(starts, line) == Painted(before, s.start, n, line)
      {
        ghost var earlier := starts;
        starts := starts[n := s.start];
        n := n + 1;
        forall line ensures Lookup(starts, line) == Painted(before, s.start, n, line) {
          assert Lookup(earlier, line) == Painted(before, s.start, n - 1, line);
        }
      }
      forall line ensures Lookup(starts, line) == LastStart(spans[..i + 1], line) {
        assert spans[..i + 1][..i] == spans[..i];
        assert Lookup(starts, line) == Painted(before, s.start, n, line);
        assert Lookup(before, line) == LastStart(spans[..i], line);
      }
    }
    assert spans[..|spans|] == spans;
  }

  // ---------------------------------------------------------------- innermost functions

  predicate Inside(a: Span, b: Span) {
    b.start <= a.start && a.end <= b.end
  }

  predicate Disjoint(a: Span, b: Span) {
    a.end < b.start || b.end < a.start
  }

  /** Functions are nested or apart, and the walk reaches an enclosing function first. */
  ghost predicate WalkOrder(spans: seq<Span>) {
    forall i, j :: 0 <= i < j < |spans| ==> Disjoint(spans[i], spans[j]) || Inside(spans[j], spans[i])
  }

  /** The start of the innermost function around a line, None outside all functions. */
  ghost predicate IsInnermost(spans: seq<Span>, line: int, start: Option<nat>) {
    match start
    case None => forall i :: 0 <= i < |spans| ==> !(spans[i].start <= line <= spans[i].end)
    case Some(n) =>
      && (exists i :: 0 <= i < |spans| && spans[i].start == n <= line <= spans[i].end)
      && (forall i :: 0 <= i < |spans| && spans[i].start <= line <= spans[i].end ==> spans[i].start <= n)
  }

  /** Painting in walk order leaves on each line the start of its innermost function. */
  lemma {:induction false} PaintIsInnermost(spans: seq<Span>, line: int)
    requires WalkOrder(spans)
    ensures IsInnermost(spans, line, LastStart(spans, line))
    decreases |spans|
  {
    if spans == [] {
    } else {
      var n := |spans| - 1;
      var init := spans[..n];
      if Contains(spans[n], line) {
        forall i | 0 <= i < |spans| && Contains(spans[i], line) ensures spans[i].start <= spans[n].start {
          assert i < n ==> Inside(spans[n], spans[i]);
        }
      } else {
        PaintIsInnermost(init, line);
        var r := LastStart(init, line);
        if r.Some? {
          var i :| 0 <= i < |init| && Contains(init[i], line) && init[i].start == r.value;
          assert spans[i] == init[i];
        }
        forall i | 0 <= i < |spans| && Contains(spans[i], line)
          ensures r.Some? && spans[i].start <= r.value
        {
          assert init[i] == spans[i];
        }
      }
    }
  }

  // ---------------------------------------------------------------- the verdict

  /** Some line from `first` up to the call, counted from 1, carries a justification. */
  ghost predicate Justified(lines: seq<string>, comment: string -> bool, first: int, call: int) {
    exists k :: 0 <= k < |lines| && first <= k + 1 <= call && comment(lines[k])
  }

  function WindowStart(scope: Option<nat>): nat {
    if scope.Some? then scope.value else 1
  }

  /** any(pattern.search(line) for line in lines[scope_start - 1 : call_line]) */
  method WindowHasComment(lines: seq<string>, comment: string -> bool, first: nat, call: nat)
    returns (found: bool)
    requires first >= 1
    ensures found <==> Justified(lines, comment, first, call)
  {
    var n := first;
    while n <= call && n <= |lines|
      invariant first <= n
      invariant forall k :: 0 <= k < |lines| && first <= k + 1 < n ==> !comment(lines[k])
    {
      if comment(lines[n - 1]) { return true; }
      n := n + 1;
    }
    return false;
  }

  /** The flagged calls, in walk order. */
  ghost function Flagged(lines: seq<string>, comment: string -> bool, spans: seq<Span>, calls: seq<nat>): seq<nat> {
    if calls == [] then []
    else
      var n := |calls| - 1;
      Flagged(lines, comment, spans, calls[..n]) +
      if Justified(lines, comment, WindowStart(LastStart(spans, calls[n])), calls[n]) then [] else [calls[n]]
  }

  method CheckCalls(lines: seq<string>, comment: string -> bool, spans: seq<Span>, calls: seq<nat>)
    returns (violations: seq<nat>)
    requires forall i :: 0 <= i < |spans| ==> spans[i].start >= 1
    ensures violations == Flagged(lines, comment, spans, calls)
  {
    var starts := PaintScopes(spans);
    violations := [];
    for i := 0 to |calls|
      invariant violations == Flagged(lines, comment, spans, calls[..i])
    {
      var call := calls[i];
      assert calls[..i + 1][..i] == calls[..i];
      StartPositive(spans, call);
      assert Lookup(starts, call) == LastStart(spans, call);
      var first := if call in starts then starts[call] else 1;
      var found := WindowHasComment(lines, comment, first, call);
      if !found {
        violations := violations + [call];
      }
    }
    assert calls[..|calls|] == calls;
  }

  lemma {:induction false} StartPositive(spans: seq<Span>, line: int)
    requires forall i :: 0 <= i < |spans| ==> spans[i].start >= 1
    ensures LastStart(spans, line).Some? ==> LastStart(spans, line).value >= 1
    decreases |spans|
  {
    if spans == [] {
    } else {
      StartPositive(spans[..|spans| - 1], line);
    }
  }

  /**
   With functions visited in walk order, a call is flagged exactly when no line between the start
   of its innermost function, or line 1 outside functions, and the call carries a justification.
   */
  lemma {:induction false} FlaggedMeaning(
    lines: seq<string>, comment: string -> bool, spans: seq<Span>, calls: seq<nat>, call: nat, scope: Option<nat>)
    requires WalkOrder(spans) && call in calls && IsInnermost(spans, call, scope)
    ensures call in Flagged(lines, comment, spans, calls) <==>
            !Justified(lines, comment, if scope.Some? then scope.value else 1, call)
  {
    PaintIsInnermost(spans, call);
    InnermostUnique(spans, call, scope, LastStart(spans, call));
    FlaggedIs(lines, comment, spans, calls, call);
  }

  lemma {:induction false} InnermostUnique(spans: seq<Span>, line: int, a: Option<nat>, b: Option<nat>)
    requires IsInnermost(spans, line, a) && IsInnermost(spans, line, b)
    ensures a == b
  {
  }

  lemma {:induction false} FlaggedIs(
    lines: seq<string>, comment: string -> bool, spans: seq<Span>, calls: seq<nat>, call: nat)
    ensures call in Flagged(lines, comment, spans, calls) <==>
            call in calls && !Justified(lines, comment, WindowStart(LastStart(spans, call)), call)
    decreases |calls|
  {
    if calls == [] {
    } else {
      FlaggedIs(lines, comment, spans, calls[..|calls| - 1], call);
      assert calls == calls[..|calls| - 1] + [calls[|calls| - 1]];
    }
  }
}
