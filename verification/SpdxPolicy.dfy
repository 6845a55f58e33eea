/**
 The verdict on a licence string: the evaluator of parsed expressions and the two-stage check
 around it.  The allowlist, the alias table and Unicode lower-casing are parameters.
 */
module SpdxPolicy {
  import opened Basics
  import opened PythonText
  import opened SpdxParser
  import opened SpdxGrammar
  import opened SpdxTokens

  datatype Policy = Policy(
    allow: set<string>,
    aliases: map<string, string>,
    lower: string -> string,
    word: Words)
  {
    predicate Allows(text: string) {
      lower(text) in allow
    }
  }

  // ---------------------------------------------------------------- evaluation

  function Evaluate(p: Policy, t: Ast): bool {
    match t
    case Id(name) => p.Allows(name)
    case And(l, r) => Evaluate(p, l) && Evaluate(p, r)
    case Or(l, r) => Evaluate(p, l) || Evaluate(p, r)
    case With(l, e) => l.Id? && p.Allows(l.name + " WITH " + e)
  }

  /** The licences a reader ends up under, for each way of picking one side of every OR. */
  function Choices(t: Ast): set<set<Ast>> {
    match t
    case Id(_) => {{t}}
    case With(_, _) => {{t}}
    case Or(l, r) => Choices(l) + Choices(r)
    case And(l, r) => set a, b | a in Choices(l) && b in Choices(r) :: a + b
  }

  /** An exception counts only as the whole entry "L WITH E", never over a compound. */
  predicate LeafAllowed(p: Policy, leaf: Ast) {
    match leaf
    case Id(name) => p.lower(name) in p.allow
    case With(Id(name), e) => p.lower(name + " WITH " + e) in p.allow
    case _ => false
  }

  ghost predicate ChoiceAllowed(p: Policy, c: set<Ast>) {
    forall leaf :: leaf in c ==> LeafAllowed(p, leaf)
  }

  ghost predicate SomeChoice(p: Policy, t: Ast) {
    exists c :: c in Choices(t) && ChoiceAllowed(p, c)
  }

  /** Evaluation means choice. */
  lemma {:induction false} EvaluateIsChoice(p: Policy, t: Ast)
    ensures Evaluate(p, t) <==> SomeChoice(p, t)
  {
    match t
    case Id(_) => assert {t} in Choices(t);
    case With(_, _) => assert {t} in Choices(t);
    case Or(l, r) =>
      EvaluateIsChoice(p, l);
      EvaluateIsChoice(p, r);
      if SomeChoice(p, l) { var c :| c in Choices(l) && ChoiceAllowed(p, c); assert c in Choices(t); }
      if SomeChoice(p, r) { var c :| c in Choices(r) && ChoiceAllowed(p, c); assert c in Choices(t); }
    case And(l, r) =>
      EvaluateIsChoice(p, l);
      EvaluateIsChoice(p, r);
      if SomeChoice(p, l) && SomeChoice(p, r) {
        var a :| a in Choices(l) && ChoiceAllowed(p, a);
        var b :| b in Choices(r) && ChoiceAllowed(p, b);
        assert a + b in Choices(t) && ChoiceAllowed(p, a + b);
      }
      if SomeChoice(p, t) {
        var c :| c in Choices(t) && ChoiceAllowed(p, c);
        var a, b :| a in Choices(l) && b in Choices(r) && c == a + b;
        assert ChoiceAllowed(p, a) && ChoiceAllowed(p, b);
      }
  }

  /** Regrouping a chain of one operator changes none of the choices. */
  lemma {:induction false} RegroupedChoices(a: Ast, b: Ast, c: Ast)
    ensures Choices(And(And(a, b), c)) == Choices(And(a, And(b, c)))
    ensures Choices(Or(Or(a, b), c)) == Choices(Or(a, Or(b, c)))
  {
    var left, right := Choices(And(And(a, b), c)), Choices(And(a, And(b, c)));
    forall s | s in left ensures s in right {
      var ab, z :| ab in Choices(And(a, b)) && z in Choices(c) && s == ab + z;
      var x, y :| x in Choices(a) && y in Choices(b) && ab == x + y;
      assert y + z in Choices(And(b, c)) && s == x + (y + z);
    }
    forall s | s in right ensures s in left {
      var x, bc :| x in Choices(a) && bc in Choices(And(b, c)) && s == x + bc;
      var y, z :| y in Choices(b) && z in Choices(c) && bc == y + z;
      assert x + y in Choices(And(a, b)) && s == (x + y) + z;
    }
  }

  // ---------------------------------------------------------------- regrouping

  /** One chain of ANDs after another, as one chain that nests to the right. */
  function ChainAnd(l: Ast, r: Ast): Ast {
    if l.And? then And(l.left, ChainAnd(l.right, r)) else And(l, r)
  }

  function ChainOr(l: Ast, r: Ast): Ast {
    if l.Or? then Or(l.left, ChainOr(l.right, r)) else Or(l, r)
  }

  /** The tree with every chain of one operator, at every depth, nested to the right. */
  function RightNested(t: Ast): Ast {
    match t
    case Id(_) => t
    case With(l, e) => With(RightNested(l), e)
    case And(l, r) => ChainAnd(RightNested(l), RightNested(r))
    case Or(l, r) => ChainOr(RightNested(l), RightNested(r))
  }

  lemma {:induction false} ChainsAssociate(a: Ast, b: Ast, c: Ast)
    ensures ChainAnd(ChainAnd(a, b), c) == ChainAnd(a, ChainAnd(b, c))
    ensures ChainOr(ChainOr(a, b), c) == ChainOr(a, ChainOr(b, c))
  {
    if a.And? {
      ChainsAssociate(a.right, b, c);
    } else if a.Or? {
      ChainsAssociate(a.right, b, c);
    }
  }

  /** Trees that differ by moving the parentheses of one chain have the same right-nested form. */
  lemma {:induction false} RotationIsRegrouping(a: Ast, b: Ast, c: Ast)
    ensures RightNested(And(And(a, b), c)) == RightNested(And(a, And(b, c)))
    ensures RightNested(Or(Or(a, b), c)) == RightNested(Or(a, Or(b, c)))
  {
    ChainsAssociate(RightNested(a), RightNested(b), RightNested(c));
  }

  lemma {:induction false} ChainsEvaluate(p: Policy, l: Ast, r: Ast)
    ensures Evaluate(p, ChainAnd(l, r)) == (Evaluate(p, l) && Evaluate(p, r))
    ensures Evaluate(p, ChainOr(l, r)) == (Evaluate(p, l) || Evaluate(p, r))
  {
    if l.And? {
      ChainsEvaluate(p, l.right, r);
    } else if l.Or? {
      ChainsEvaluate(p, l.right, r);
    }
  }

  lemma {:induction false} RightNestedEvaluates(p: Policy, t: Ast)
    ensures Evaluate(p, RightNested(t)) == Evaluate(p, t)
  {
    match t
    case Id(_) =>
    case With(l, _) => assert RightNested(l).Id? <==> l.Id?;
    case And(l, r) =>
      RightNestedEvaluates(p, l);
      RightNestedEvaluates(p, r);
      ChainsEvaluate(p, RightNested(l), RightNested(r));
    case Or(l, r) =>
      RightNestedEvaluates(p, l);
      RightNestedEvaluates(p, r);
      ChainsEvaluate(p, RightNested(l), RightNested(r));
  }

  /** Two trees that differ only by regrouping, at any depth, get the same verdict from any policy. */
  lemma {:induction false} RegroupingKeepsVerdict(p: Policy, t: Ast, u: Ast)
    requires RightNested(t) == RightNested(u)
    ensures Evaluate(p, t) == Evaluate(p, u)
  {
    RightNestedEvaluates(p, t);
    RightNestedEvaluates(p, u);
  }

  /** A longer allowlist never turns a verdict negative. */
  lemma {:induction false} EvaluateIsMonotone(p: Policy, q: Policy, t: Ast)
    requires p.allow <= q.allow && p.lower == q.lower && Evaluate(p, t)
    ensures Evaluate(q, t)
  {
    match t
    case Id(_) =>
    case With(_, _) =>
    case And(l, r) => EvaluateIsMonotone(p, q, l); EvaluateIsMonotone(p, q, r);
    case Or(l, r) => if Evaluate(p, l) { EvaluateIsMonotone(p, q, l); } else { EvaluateIsMonotone(p, q, r); }
  }

  // ---------------------------------------------------------------- the two stages

  const SEPARATOR := "; "

  predicate SeparatorAt(s: string, i: nat) {
    i + 1 < |s| && s[i] == ';' && s[i + 1] == ' '
  }

  /** str.split("; ") on s[start..], where no separator begins in s[start..i]. */
  function SplitFrom(s: string, start: nat, i: nat): (r: seq<string>)
    requires start <= i <= |s|
    ensures r != []
    decreases |s| - i
  {
    if i == |s| then [s[start..]]
    else if SeparatorAt(s, i) then [s[start..i]] + SplitFrom(s, i + 2, i + 2)
    else SplitFrom(s, start, i + 1)
  }

  function Split(s: string): seq<string> {
    SplitFrom(s, 0, 0)
  }

  /** "; ".join(pieces) */
  function JoinPieces(pieces: seq<string>): string
    requires pieces != []
  {
    if |pieces| == 1 then pieces[0] else pieces[0] + SEPARATOR + JoinPieces(pieces[1..])
  }

  function Canonical(p: Policy, piece: string): string {
    var key := p.lower(Strip(piece));
    if key in p.aliases then p.aliases[key] else piece
  }

  function MapCanonical(p: Policy, pieces: seq<string>): (r: seq<string>)
    ensures |r| == |pieces|
    ensures forall i :: 0 <= i < |r| ==> r[i] == Canonical(p, pieces[i])
  {
    seq(|pieces|, i requires 0 <= i < |pieces| => Canonical(p, pieces[i]))
  }

  function NormaliseAliases(p: Policy, s: string): string {
    JoinPieces(MapCanonical(p, Split(s)))
  }

  /** Stage 1: at least one non-blank piece, and every non-blank piece is on the allowlist. */
  predicate FlatAllowed(p: Policy, s: string) {
    var pieces := Split(s);
    && (exists i :: 0 <= i < |pieces| && Strip(pieces[i]) != "")
    && (forall i :: 0 <= i < |pieces| && Strip(pieces[i]) != "" ==> p.Allows(Strip(pieces[i])))
  }

  function EvaluateAsExpression(p: Policy, s: string): bool {
    var r := Parse(Tokenize(p.word, s));
    r.Ok? && Evaluate(p, r.node)
  }

  function IsAllowed(p: Policy, s: Option<string>): bool {
    s.Some? && s.value != "" &&
    var text := NormaliseAliases(p, s.value);
    FlatAllowed(p, text) || EvaluateAsExpression(p, text)
  }

  /** Some element is concerned, and every one that is concerned passes. */
  ghost predicate SomeAndAll(xs: seq<string>, concerned: string -> bool, passes: string -> bool) {
    && (exists i :: 0 <= i < |xs| && concerned(xs[i]))
    && (forall i :: 0 <= i < |xs| && concerned(xs[i]) ==> passes(xs[i]))
  }

  /** Some piece is not blank, and every piece that is not blank is listed. */
  ghost predicate AllListed(p: Policy, pieces: seq<string>) {
    SomeAndAll(pieces, q => Strip(q) != "", q => p.lower(Strip(q)) in p.allow)
  }

  /** The expression has a reading under which some choice of licences is all listed. */
  ghost predicate SomeReading(p: Policy, text: string) {
    exists t :: DerivesOr(Tokenize(p.word, text), t) && SomeChoice(p, t)
  }

  lemma {:induction false} StageOneMeaning(p: Policy, text: string)
    ensures FlatAllowed(p, text) <==> AllListed(p, Split(text))
  {
  }

  lemma {:induction false} StageTwoMeaning(p: Policy, text: string)
    ensures EvaluateAsExpression(p, text) <==> SomeReading(p, text)
  {
    var tokens := Tokenize(p.word, text);
    if EvaluateAsExpression(p, text) {
      var t := Parse(tokens).node;
      ParserIsGrammar(tokens, t);
      EvaluateIsChoice(p, t);
    }
    forall t | DerivesOr(tokens, t) && SomeChoice(p, t) ensures EvaluateAsExpression(p, text) {
      ParserIsGrammar(tokens, t);
      EvaluateIsChoice(p, t);
    }
  }

  /**
   The verdict, without the parser or the evaluator: a string is allowed exactly when, after alias
   replacement, its pieces are all listed, or its tokens derive a tree that has a choice of
   licences which are all listed.  Everything else, unparsable strings included, is refused.
   */
  lemma {:induction false} VerdictMeaning(p: Policy, s: Option<string>)
    ensures IsAllowed(p, s) <==>
      && s.Some? && s.value != ""
      && var text := NormaliseAliases(p, s.value);
         AllListed(p, Split(text)) || SomeReading(p, text)
  {
    if s.Some? && s.value != "" {
      var text := NormaliseAliases(p, s.value);
      StageOneMeaning(p, text);
      StageTwoMeaning(p, text);
    }
  }

  // ---------------------------------------------------------------- aliases

  /** A piece that a split can return: no separator inside it. */
  ghost predicate Whole(s: string) {
    forall i :: 0 <= i < |s| ==> !SeparatorAt(s, i)
  }

  lemma {:induction false} JoinSplit(s: string, start: nat, i: nat)
    requires start <= i <= |s|
    ensures JoinPieces(SplitFrom(s, start, i)) == s[start..]
    decreases |s| - i
  {
    if i < |s| {
      if SeparatorAt(s, i) {
        JoinSplit(s, i + 2, i + 2);
        var more := SplitFrom(s, i + 2, i + 2);
        assert ([s[start..i]] + more)[1..] == more;
        assert s[start..] == s[start..i] + SEPARATOR + s[i + 2..];
      } else {
        JoinSplit(s, start, i + 1);
      }
    }
  }

  lemma {:induction false} WholeSlice(s: string, a: nat, b: nat)
    requires a <= b <= |s| && forall j :: a <= j < b ==> !SeparatorAt(s, j)
    ensures Whole(s[a..b])
  {
    forall i | 0 <= i < b - a ensures !SeparatorAt(s[a..b], i) {
      assert !SeparatorAt(s, a + i);
    }
  }

  lemma {:induction false} SplitPiecesWhole(s: string, start: nat, i: nat)
    requires start <= i <= |s| && forall j :: start <= j < i ==> !SeparatorAt(s, j)
    ensures forall q :: q in SplitFrom(s, start, i) ==> Whole(q)
    decreases |s| - i
  {
    if i == |s| {
      WholeSlice(s, start, i);
      assert s[start..] == s[start..i];
    } else if SeparatorAt(s, i) {
      SplitPiecesWhole(s, i + 2, i + 2);
      WholeSlice(s, start, i);
    } else {
      SplitPiecesWhole(s, start, i + 1);
    }
  }

  /** Splitting a join of whole pieces finds the pieces again. */
  lemma {:induction false} SplitJoin(pieces: seq<string>, s: string, start: nat, i: nat)
    requires pieces != [] && forall q :: q in pieces ==> Whole(q)
    requires start <= i <= start + |pieces[0]| <= |s| && s[start..] == JoinPieces(pieces)
    ensures SplitFrom(s, start, i) == pieces
    decreases |s| - i
  {
    var q, n := pieces[0], start + |pieces[0]|;
    assert q in pieces;
    JoinedPiece(pieces, s, start);
    if i < n {
      NoSeparatorInside(pieces, s, start, i);
      SplitJoin(pieces, s, start, i + 1);
    } else if |pieces| > 1 {
      FirstFits(pieces[1..]);
      SplitJoin(pieces[1..], s, n + 2, n + 2);
      assert pieces == [q] + pieces[1..];
    } else {
      assert |s| == n && pieces == [q] && s[start..] == q;
    }
  }

  /** Where a join begins, its first piece is followed by the end or by a separator. */
  lemma {:induction false} JoinedPiece(pieces: seq<string>, s: string, start: nat)
    requires pieces != [] && start + |pieces[0]| <= |s| && s[start..] == JoinPieces(pieces)
    ensures var n := start + |pieces[0]|;
      && s[start..n] == pieces[0]
      && (|pieces| == 1 ==> n == |s|)
      && (|pieces| > 1 ==> SeparatorAt(s, n) && s[n + 2..] == JoinPieces(pieces[1..]))
  {
    var q, n := pieces[0], start + |pieces[0]|;
    assert s[start..n] == s[start..][..|q|];
    if |pieces| > 1 {
      assert s[start..] == q + SEPARATOR + JoinPieces(pieces[1..]);
      assert s[n] == s[start..][|q|] && s[n + 1] == s[start..][|q| + 1];
      assert s[n + 2..] == s[start..][|q| + 2..];
    }
  }

  lemma {:induction false} FirstFits(pieces: seq<string>)
    requires pieces != []
    ensures |pieces[0]| <= |JoinPieces(pieces)|
  {
  }

  lemma {:induction false} NoSeparatorInside(pieces: seq<string>, s: string, start: nat, i: nat)
    requires pieces != [] && Whole(pieces[0])
    requires start <= i < start + |pieces[0]| <= |s| && s[start..] == JoinPieces(pieces)
    ensures !SeparatorAt(s, i)
  {
    var q := pieces[0];
    JoinedPiece(pieces, s, start);
    assert !SeparatorAt(q, i - start);
    assert s[i] == s[start..start + |q|][i - start] == q[i - start];
    if i + 1 < start + |q| {
      assert s[i + 1] == s[start..start + |q|][i + 1 - start];
    }
  }

  /** The table maps aliases to names that are not aliases themselves and contain no separator. */
  ghost predicate AliasTable(p: Policy) {
    forall key :: key in p.aliases ==>
      Whole(p.aliases[key]) && p.lower(Strip(p.aliases[key])) !in p.aliases
  }

  /** Replacement works piece by piece, and no piece of the result is an alias. */
  lemma {:induction false} NoAliasRemains(p: Policy, s: string)
    requires AliasTable(p)
    ensures Split(NormaliseAliases(p, s)) == MapCanonical(p, Split(s))
    ensures forall q :: q in Split(NormaliseAliases(p, s)) ==> p.lower(Strip(q)) !in p.aliases
  {
    var names := MapCanonical(p, Split(s));
    SplitPiecesWhole(s, 0, 0);
    CanonicalPieces(p, Split(s));
    FirstFits(names);
    assert JoinPieces(names)[0..] == JoinPieces(names);
    SplitJoin(names, JoinPieces(names), 0, 0);
  }

  /** Alias replacement is done in one pass: a second pass changes nothing. */
  lemma {:induction false} NormaliseIsIdempotent(p: Policy, s: string)
    requires AliasTable(p)
    ensures NormaliseAliases(p, NormaliseAliases(p, s)) == NormaliseAliases(p, s)
  {
    NoAliasRemains(p, s);
    SplitPiecesWhole(s, 0, 0);
    CanonicalPieces(p, Split(s));
  }

  lemma {:induction false} CanonicalPieces(p: Policy, pieces: seq<string>)
    requires AliasTable(p) && forall q :: q in pieces ==> Whole(q)
    ensures forall q :: q in MapCanonical(p, pieces) ==> Whole(q)
    ensures forall q :: q in MapCanonical(p, pieces) ==> p.lower(Strip(q)) !in p.aliases
    ensures MapCanonical(p, MapCanonical(p, pieces)) == MapCanonical(p, pieces)
  {
    var names := MapCanonical(p, pieces);
    forall i | 0 <= i < |names|
      ensures Whole(names[i]) && p.lower(Strip(names[i])) !in p.aliases && Canonical(p, names[i]) == names[i]
    {
      assert pieces[i] in pieces;
    }
    assert MapCanonical(p, names) == names;
  }

  lemma {:induction false} NotAliases(p: Policy, pieces: seq<string>)
    requires forall q :: q in pieces ==> p.lower(Strip(q)) !in p.aliases
    ensures MapCanonical(p, pieces) == pieces
  {
    forall i | 0 <= i < |pieces| ensures Canonical(p, pieces[i]) == pieces[i] {
      assert pieces[i] in pieces;
    }
  }

  /** A string without alias pieces goes through unchanged. */
  lemma {:induction false} NormaliseKeepsOthers(p: Policy, s: string)
    requires forall q :: q in Split(s) ==> p.lower(Strip(q)) !in p.aliases
    ensures NormaliseAliases(p, s) == s
  {
    NotAliases(p, Split(s));
    JoinSplit(s, 0, 0);
    assert s[0..] == s;
  }

  // ---------------------------------------------------------------- the verdict on pieces

  lemma {:induction false} SplitOfJoin(pieces: seq<string>)
    requires pieces != [] && forall q :: q in pieces ==> Whole(q)
    ensures Split(JoinPieces(pieces)) == pieces
  {
    FirstFits(pieces);
    assert JoinPieces(pieces)[0..] == JoinPieces(pieces);
    SplitJoin(pieces, JoinPieces(pieces), 0, 0);
  }

  /** Every text is the join of whole pieces, in one way only. */
  lemma {:induction false} PiecesOf(s: string, pieces: seq<string>)
    ensures pieces == Split(s) <==>
      pieces != [] && s == JoinPieces(pieces) && forall q :: q in pieces ==> Whole(q)
  {
    JoinSplit(s, 0, 0);
    SplitPiecesWhole(s, 0, 0);
    if pieces != [] && s == JoinPieces(pieces) && forall q :: q in pieces ==> Whole(q) {
      SplitOfJoin(pieces);
    }
  }

  /**
   The verdict on any list of pieces joined by the separator, `names` being the pieces with each
   known alias replaced: allowed exactly when some name is not blank and all that are not are
   listed, or when the whole text has a reading with an allowed choice.
   */
  lemma {:induction false} VerdictOnPieces(p: Policy, pieces: seq<string>, names: seq<string>)
    requires pieces != [] && |names| == |pieces| && JoinPieces(pieces) != ""
    requires forall q :: q in pieces ==> Whole(q)
    requires forall q :: q in names ==> Whole(q)
    requires forall i :: 0 <= i < |pieces| ==>
      names[i] == var key := p.lower(Strip(pieces[i])); if key in p.aliases then p.aliases[key] else pieces[i]
    ensures IsAllowed(p, Some(JoinPieces(pieces))) <==>
            AllListed(p, names) || SomeReading(p, JoinPieces(names))
  {
    SplitOfJoin(pieces);
    assert MapCanonical(p, pieces) == names;
    SplitOfJoin(names);
    VerdictMeaning(p, Some(JoinPieces(pieces)));
  }

  ghost predicate Every(xs: seq<string>, passes: string -> bool) {
    forall q :: q in xs ==> passes(q)
  }

  /** Without aliases the pieces are judged as they are written. */
  lemma {:induction false} VerdictUnaliased(p: Policy, pieces: seq<string>)
    requires pieces != [] && JoinPieces(pieces) != "" && Every(pieces, q => Whole(q))
    requires Every(pieces, q => p.lower(Strip(q)) !in p.aliases)
    ensures IsAllowed(p, Some(JoinPieces(pieces))) <==>
            AllListed(p, pieces) || SomeReading(p, JoinPieces(pieces))
  {
    forall i | 0 <= i < |pieces| ensures p.lower(Strip(pieces[i])) !in p.aliases {
      assert pieces[i] in pieces;
    }
    VerdictOnPieces(p, pieces, pieces);
  }

  lemma {:induction false} JoinTwo(a: string, b: string)
    ensures JoinPieces([a, b]) == a + "; " + b
  {
    assert [a, b][1..] == [b];
  }

  lemma {:induction false} EveryPair(a: string, b: string, passes: string -> bool)
    requires passes(a) && passes(b)
    ensures Every([a, b], passes)
  {
  }

  lemma {:induction false} BothPass(a: string, b: string, concerned: string -> bool, passes: string -> bool)
    requires concerned(a) && concerned(b)
    ensures SomeAndAll([a, b], concerned, passes) <==> passes(a) && passes(b)
  {
    var xs := [a, b];
    assert xs[0] == a && xs[1] == b;
  }

  /** Two names, written with the separator between them: one that is listed is not enough. */
  lemma {:induction false} VerdictOnTwo(p: Policy, a: string, b: string)
    requires Whole(a) && Whole(b) && Strip(a) != "" && Strip(b) != ""
    requires p.lower(Strip(a)) !in p.aliases && p.lower(Strip(b)) !in p.aliases
    ensures IsAllowed(p, Some(a + "; " + b)) <==>
      || (p.lower(Strip(a)) in p.allow && p.lower(Strip(b)) in p.allow)
      || SomeReading(p, a + "; " + b)
  {
    JoinTwo(a, b);
    EveryPair(a, b, q => Whole(q));
    EveryPair(a, b, q => p.lower(Strip(q)) !in p.aliases);
    BothPass(a, b, q => Strip(q) != "", q => p.lower(Strip(q)) in p.allow);
    VerdictUnaliased(p, [a, b]);
  }

  /** A missing or empty licence is refused. */
  lemma {:induction false} NothingIsRefused(p: Policy)
    ensures !IsAllowed(p, None) && !IsAllowed(p, Some(""))
  {
  }
}
