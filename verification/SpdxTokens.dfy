/**
 The tokenizer: findall over the pattern  \( | \) | \bAND\b | \bOR\b | \bWITH\b | [^\s()]+ .
 The table of word characters behind \b is a parameter; only what Unicode guarantees of it is
 asked for.
 */
module SpdxTokens {
  import opened PythonText
  import opened SpdxParser
  import opened SpdxGrammar
  import opened SpdxPrint

  type Words = char -> bool

  /** Keyword letters are word characters; white space and parentheses are not. */
  ghost predicate WordTable(word: Words) {
    && (forall c :: IsSpace(c) ==> !word(c))
    && !word('(') && !word(')')
    && word('A') && word('N') && word('D') && word('O') && word('R')
    && word('W') && word('I') && word('T') && word('H')
  }

  // ---------------------------------------------------------------- the scanner

  predicate WordAt(word: Words, s: string, i: int) {
    0 <= i < |s| && word(s[i])
  }

  /** \b at position i. */
  predicate Boundary(word: Words, s: string, i: nat) {
    WordAt(word, s, i - 1) != WordAt(word, s, i)
  }

  predicate KeywordAt(word: Words, s: string, i: nat, kw: string) {
    i + |kw| <= |s| && s[i..i + |kw|] == kw && Boundary(word, s, i) && Boundary(word, s, i + |kw|)
  }

  /** [^\s()] */
  predicate IsPlainChar(c: char) {
    !IsSpace(c) && c != '(' && c != ')'
  }

  function RunLength(s: string, i: nat): (n: nat)
    requires i <= |s|
    ensures i + n <= |s|
    ensures forall j :: i <= j < i + n ==> IsPlainChar(s[j])
    ensures i + n < |s| ==> !IsPlainChar(s[i + n])
    decreases |s| - i
  {
    if i < |s| && IsPlainChar(s[i]) then 1 + RunLength(s, i + 1) else 0
  }

  /** The length of the match at i, the alternatives tried in order; 0 when there is none. */
  function MatchLength(word: Words, s: string, i: nat): (n: nat)
    requires i < |s|
    ensures i + n <= |s|
  {
    if s[i] == '(' || s[i] == ')' then 1
    else if KeywordAt(word, s, i, "AND") then 3
    else if KeywordAt(word, s, i, "OR") then 2
    else if KeywordAt(word, s, i, "WITH") then 4
    else RunLength(s, i)
  }

  /** The length of the match a pattern has at each position of a text; 0 where it has none. */
  type Matcher = nat -> nat

  /** findall: take the match at i and go on behind it, or try the next position. */
  function FindAll(m: Matcher, s: string, i: nat): seq<string>
    requires i <= |s|
    decreases |s| - i
  {
    if i == |s| then []
    else if m(i) == 0 || i + m(i) > |s| then FindAll(m, s, i + 1)
    else [s[i..i + m(i)]] + FindAll(m, s, i + m(i))
  }

  function MatcherOf(word: Words, s: string): Matcher {
    (i: nat) => if i < |s| then MatchLength(word, s, i) else 0
  }

  function Tokenize(word: Words, s: string): seq<string> {
    FindAll(MatcherOf(word, s), s, 0)
  }

  // ---------------------------------------------------------------- nothing is lost

  function Flatten(ts: seq<string>): string {
    if ts == [] then "" else ts[0] + Flatten(ts[1..])
  }

  function WithoutSpace(s: string): string {
    if s == "" then "" else (if IsSpace(s[0]) then "" else [s[0]]) + WithoutSpace(s[1..])
  }

  lemma {:induction false} WithoutSpaceOf(a: string, b: string)
    requires forall j :: 0 <= j < |a| ==> !IsSpace(a[j])
    ensures WithoutSpace(a + b) == a + WithoutSpace(b)
  {
    if a == "" {
      assert a + b == b;
    } else {
      assert (a + b)[1..] == a[1..] + b;
      WithoutSpaceOf(a[1..], b);
    }
  }

  lemma {:induction false} MatchHasNoSpace(word: Words, s: string, i: nat)
    requires i < |s|
    ensures forall j :: i <= j < i + MatchLength(word, s, i) ==> !IsSpace(s[j])
    ensures MatchLength(word, s, i) == 0 ==> IsSpace(s[i])
  {
    var n := MatchLength(word, s, i);
    forall j | i <= j < i + n ensures !IsSpace(s[j]) {
      assert s[i..i + n][j - i] == s[j];
    }
  }

  /** Matches hold no space, and only a space is left unmatched. */
  ghost predicate SpaceFree(m: Matcher, s: string, i: nat)
    requires i < |s|
  {
    && i + m(i) <= |s| && (m(i) == 0 ==> IsSpace(s[i]))
    && forall j :: i <= j < i + m(i) ==> !IsSpace(s[j])
  }

  lemma {:induction false} FindAllKeepsText(m: Matcher, s: string, i: nat)
    requires i <= |s| && forall k :: 0 <= k < |s| ==> SpaceFree(m, s, k)
    ensures Flatten(FindAll(m, s, i)) == WithoutSpace(s[i..])
    decreases |s| - i
  {
    if i < |s| {
      assert SpaceFree(m, s, i);
      if m(i) == 0 {
        FindAllKeepsText(m, s, i + 1);
        WithoutSpaceSkips(s, i);
      } else {
        FindAllKeepsText(m, s, i + m(i));
        TokenKept(s, i, m(i), FindAll(m, s, i + m(i)));
      }
    }
  }

  lemma {:induction false} TokenKept(s: string, i: nat, n: nat, ts: seq<string>)
    requires i + n <= |s| && forall j :: i <= j < i + n ==> !IsSpace(s[j])
    requires Flatten(ts) == WithoutSpace(s[i + n..])
    ensures Flatten([s[i..i + n]] + ts) == WithoutSpace(s[i..])
  {
    FlattenCons(s[i..i + n], ts);
    WithoutSpaceSlice(s, i, n);
  }

  lemma {:induction false} WithoutSpaceSlice(s: string, i: nat, n: nat)
    requires i + n <= |s| && forall j :: i <= j < i + n ==> !IsSpace(s[j])
    ensures WithoutSpace(s[i..]) == s[i..i + n] + WithoutSpace(s[i + n..])
  {
    WithoutSpaceOf(s[i..i + n], s[i + n..]);
    assert s[i..] == s[i..i + n] + s[i + n..];
  }

  lemma {:induction false} WithoutSpaceSkips(s: string, i: nat)
    requires i < |s| && IsSpace(s[i])
    ensures WithoutSpace(s[i..]) == WithoutSpace(s[i + 1..])
  {
    assert s[i..][1..] == s[i + 1..];
  }

  lemma {:induction false} FlattenCons(t: string, ts: seq<string>)
    ensures Flatten([t] + ts) == t + Flatten(ts)
  {
    assert ([t] + ts)[1..] == ts;
  }

  /** Tokenizing loses nothing but white space. */
  lemma {:induction false} TokenizeKeepsText(word: Words, s: string)
    ensures Flatten(Tokenize(word, s)) == WithoutSpace(s)
  {
    var m := MatcherOf(word, s);
    forall k | 0 <= k < |s| ensures SpaceFree(m, s, k) {
      MatchHasNoSpace(word, s, k);
    }
    FindAllKeepsText(m, s, 0);
    assert s[0..] == s;
  }

  // ---------------------------------------------------------------- what a token is

  /** The keyword kw would be split off the front of t. */
  predicate SplitsOff(word: Words, t: string, kw: string) {
    kw <= t && (|t| == |kw| || !word(t[|kw|]))
  }

  /** Text that the last alternative matches as a whole: an identifier as the tokenizer sees it. */
  predicate IsPlain(word: Words, t: string) {
    && t != ""
    && (forall j :: 0 <= j < |t| ==> IsPlainChar(t[j]))
    && !SplitsOff(word, t, "AND") && !SplitsOff(word, t, "OR") && !SplitsOff(word, t, "WITH")
  }

  predicate IsLexeme(word: Words, t: string) {
    IsPlain(word, t) || !IsName(t)
  }

  /** No keyword can begin in the middle of a word here. */
  predicate Clear(word: Words, s: string, i: nat) {
    !(WordAt(word, s, i - 1) && WordAt(word, s, i))
  }

  lemma {:induction false} ClearAfterMatch(word: Words, s: string, i: nat)
    requires WordTable(word) && i < |s|
    ensures var n := MatchLength(word, s, i); Clear(word, s, i + if n == 0 then 1 else n)
  {
    var n := MatchLength(word, s, i);
    MatchHasNoSpace(word, s, i);
    if n == 3 && KeywordAt(word, s, i, "AND") {
      assert s[i..i + 3][2] == 'D';
    } else if n == 2 && KeywordAt(word, s, i, "OR") {
      assert s[i..i + 2][1] == 'R';
    } else if n == 4 && KeywordAt(word, s, i, "WITH") {
      assert s[i..i + 4][3] == 'H';
    }
  }

  /** A keyword that would split off the front of a run of plain characters matches on its own. */
  lemma {:induction false} RunSplitsAtKeyword(word: Words, s: string, i: nat, kw: string)
    requires WordTable(word) && i < |s| && Clear(word, s, i)
    requires kw == "AND" || kw == "OR" || kw == "WITH"
    ensures SplitsOff(word, s[i..i + RunLength(s, i)], kw) ==> KeywordAt(word, s, i, kw)
  {
    var n := RunLength(s, i);
    var t := s[i..i + n];
    if SplitsOff(word, t, kw) {
      assert s[i..i + |kw|] == t[..|kw|] == kw;
      assert s[i] == kw[0] && s[i + |kw| - 1] == t[|kw| - 1] == kw[|kw| - 1];
      assert Boundary(word, s, i);
      assert i + |kw| < i + n ==> s[i + |kw|] == t[|kw|];
      assert Boundary(word, s, i + |kw|);
    }
  }

  lemma {:induction false} MatchIsLexeme(word: Words, s: string, i: nat)
    requires WordTable(word) && i < |s| && Clear(word, s, i)
    ensures var n := MatchLength(word, s, i); n > 0 ==> IsLexeme(word, s[i..i + n])
  {
    var n := MatchLength(word, s, i);
    if s[i] == '(' || s[i] == ')' {
      assert s[i..i + 1] == [s[i]];
    } else if n > 0 && !KeywordAt(word, s, i, "AND") && !KeywordAt(word, s, i, "OR")
              && !KeywordAt(word, s, i, "WITH") {
      RunSplitsAtKeyword(word, s, i, "AND");
      RunSplitsAtKeyword(word, s, i, "OR");
      RunSplitsAtKeyword(word, s, i, "WITH");
    }
  }

  /** From a clear position the match is a lexeme and ends at a clear position. */
  ghost predicate StaysClear(word: Words, m: Matcher, s: string, i: nat)
    requires i < |s|
  {
    Clear(word, s, i) ==>
      && i + m(i) <= |s| && Clear(word, s, i + if m(i) == 0 then 1 else m(i))
      && (m(i) > 0 ==> IsLexeme(word, s[i..i + m(i)]))
  }

  lemma {:induction false} FindAllLexemes(word: Words, m: Matcher, s: string, i: nat)
    requires i <= |s| && Clear(word, s, i) && forall k :: 0 <= k < |s| ==> StaysClear(word, m, s, k)
    ensures forall t :: t in FindAll(m, s, i) ==> IsLexeme(word, t)
    decreases |s| - i
  {
    if i < |s| {
      assert StaysClear(word, m, s, i);
      FindAllLexemes(word, m, s, i + if m(i) == 0 then 1 else m(i));
    }
  }

  /** Each token is a parenthesis, a keyword or text that no keyword splits off. */
  lemma {:induction false} TokensAreLexemes(word: Words, s: string)
    requires WordTable(word)
    ensures forall t :: t in Tokenize(word, s) ==> IsLexeme(word, t)
  {
    var m := MatcherOf(word, s);
    forall k | 0 <= k < |s| ensures StaysClear(word, m, s, k) {
      if Clear(word, s, k) {
        ClearAfterMatch(word, s, k);
        MatchIsLexeme(word, s, k);
      }
    }
    FindAllLexemes(word, m, s, 0);
  }

  // ---------------------------------------------------------------- stability

  /** " ".join(ts) */
  function Join(ts: seq<string>): string {
    if ts == [] then "" else if |ts| == 1 then ts[0] else ts[0] + " " + Join(ts[1..])
  }

  /** A keyword found at the start of a delimited token would split off it. */
  lemma {:induction false} KeywordHereSplits(word: Words, s: string, i: nat, t: string, kw: string)
    requires WordTable(word) && i + |t| <= |s| && s[i..i + |t|] == t
    requires i + |t| < |s| ==> s[i + |t|] == ' '
    requires kw == "AND" || kw == "OR" || kw == "WITH"
    ensures KeywordAt(word, s, i, kw) ==> SplitsOff(word, t, kw)
  {
    if KeywordAt(word, s, i, kw) {
      assert forall j :: i <= j < i + |kw| ==> s[j] == s[i..i + |kw|][j - i];
      assert |kw| <= |t|;
      assert t[..|kw|] == s[i..i + |kw|];
      assert |kw| < |t| ==> t[|kw|] == s[i + |kw|];
    }
  }

  lemma {:induction false} LexemeMatches(word: Words, s: string, i: nat, t: string)
    requires WordTable(word) && IsLexeme(word, t)
    requires i + |t| <= |s| && s[i..i + |t|] == t && t != ""
    requires i == 0 || s[i - 1] == ' '
    requires i + |t| < |s| ==> s[i + |t|] == ' '
    ensures MatchLength(word, s, i) == |t|
  {
    assert s[i] == t[0] && s[i + |t| - 1] == t[|t| - 1];
    if IsPlain(word, t) {
      KeywordHereSplits(word, s, i, t, "AND");
      KeywordHereSplits(word, s, i, t, "OR");
      KeywordHereSplits(word, s, i, t, "WITH");
      assert forall j :: i <= j < i + |t| ==> s[j] == t[j - i];
      var n := RunLength(s, i);
    } else if Kind(t) == OrWord {
      assert !KeywordAt(word, s, i, "AND") by { if i + 3 <= |s| { assert s[i..i + 3][0] == 'O'; } }
    } else if Kind(t) == WithWord {
      assert !KeywordAt(word, s, i, "AND") by { if i + 3 <= |s| { assert s[i..i + 3][0] == 'W'; } }
      assert !KeywordAt(word, s, i, "OR") by { if i + 2 <= |s| { assert s[i..i + 2][0] == 'W'; } }
    }
  }

  /** The token t stands at i, with a space or the end of the text on both sides. */
  predicate Delimited(s: string, i: nat, t: string) {
    && t != "" && i + |t| <= |s| && s[i..i + |t|] == t
    && (i == 0 || s[i - 1] == ' ')
    && (i + |t| < |s| ==> s[i + |t|] == ' ')
  }

  lemma {:induction false} FindAllTakes(m: Matcher, s: string, i: nat, t: string)
    requires Delimited(s, i, t) && m(i) == |t|
    ensures FindAll(m, s, i) == [t] + FindAll(m, s, i + |t|)
  {
  }

  lemma {:induction false} FindAllSkips(m: Matcher, s: string, i: nat)
    requires i < |s| && m(i) == 0
    ensures FindAll(m, s, i) == FindAll(m, s, i + 1)
  {
  }

  /** From i on, s is the tokens, one space between them. */
  ghost predicate Tiles(ts: seq<string>, s: string, i: nat)
    decreases |ts|
  {
    if ts == [] then i == |s|
    else
      && Delimited(s, i, ts[0])
      && (|ts| == 1 ==> i + |ts[0]| == |s|)
      && (|ts| > 1 ==> i + |ts[0]| < |s| && Tiles(ts[1..], s, i + |ts[0]| + 1))
  }

  lemma {:induction false} JoinTiles(ts: seq<string>, s: string, i: nat)
    requires i <= |s| && s[i..] == Join(ts) && (i == 0 || s[i - 1] == ' ')
    requires forall t :: t in ts ==> t != ""
    ensures Tiles(ts, s, i)
    decreases |ts|
  {
    if ts == [] {
    } else {
      assert ts[0] in ts;
      JoinedFront(ts, s, i);
      if |ts| > 1 {
        forall t | t in ts[1..] ensures t != "" {
          assert t in ts;
        }
        JoinTiles(ts[1..], s, i + |ts[0]| + 1);
      }
    }
  }

  /** From i on, the pattern matches each token in its place and no space between them. */
  predicate Matched(m: Matcher, ts: seq<string>, i: nat)
    decreases |ts|
  {
    ts == [] || (
      && m(i) == |ts[0]|
      && (|ts| > 1 ==> m(i + |ts[0]|) == 0 && Matched(m, ts[1..], i + |ts[0]| + 1)))
  }

  lemma {:induction false} FindAllTiled(m: Matcher, ts: seq<string>, s: string, i: nat)
    requires i <= |s| && Tiles(ts, s, i) && Matched(m, ts, i)
    ensures FindAll(m, s, i) == ts
    decreases |ts|
  {
    if ts == [] {
    } else {
      var t, more := ts[0], ts[1..];
      FindAllTakes(m, s, i, t);
      if more != [] {
        FindAllSkips(m, s, i + |t|);
        FindAllTiled(m, more, s, i + |t| + 1);
      }
      assert ts == [t] + more;
    }
  }

  lemma {:induction false} SpaceHasNoMatch(word: Words, s: string, i: nat)
    requires WordTable(word) && i < |s| && s[i] == ' '
    ensures MatchLength(word, s, i) == 0
  {
    forall kw: string | kw == "AND" || kw == "OR" || kw == "WITH"
      ensures !KeywordAt(word, s, i, kw)
    {
      assert i + |kw| <= |s| ==> s[i..i + |kw|][0] == ' ';
    }
  }

  lemma {:induction false} TilesMatched(word: Words, ts: seq<string>, s: string, i: nat)
    requires WordTable(word) && Tiles(ts, s, i) && forall j :: 0 <= j < |ts| ==> IsLexeme(word, ts[j])
    ensures Matched(MatcherOf(word, s), ts, i)
    decreases |ts|
  {
    if ts == [] {
    } else {
      LexemeMatches(word, s, i, ts[0]);
      if |ts| > 1 {
        SpaceHasNoMatch(word, s, i + |ts[0]|);
        TilesMatched(word, ts[1..], s, i + |ts[0]| + 1);
      }
    }
  }

  /** Lexemes joined by spaces are found again. */
  lemma {:induction false} TokenizeJoined(word: Words, ts: seq<string>)
    requires WordTable(word) && forall t :: t in ts ==> IsLexeme(word, t)
    ensures Tokenize(word, Join(ts)) == ts
  {
    var s := Join(ts);
    assert s[0..] == s;
    JoinTiles(ts, s, 0);
    TilesMatched(word, ts, s, 0);
    FindAllTiled(MatcherOf(word, s), ts, s, 0);
  }

  /** Where a join of tokens begins, the first token is followed by the end or by a space. */
  lemma {:induction false} JoinedFront(ts: seq<string>, s: string, i: nat)
    requires ts != [] && i <= |s| && s[i..] == Join(ts)
    ensures var n := |ts[0]|;
      && i + n <= |s| && s[i..i + n] == ts[0]
      && (|ts| == 1 ==> i + n == |s|)
      && (|ts| > 1 ==> i + n < |s| && s[i + n] == ' ' && s[i + n + 1..] == Join(ts[1..]))
  {
    var n := |ts[0]|;
    assert s[i..i + n] == s[i..][..n];
    if |ts| > 1 {
      assert s[i..] == ts[0] + " " + Join(ts[1..]);
      assert s[i + n] == s[i..][n];
      assert s[i + n + 1..] == s[i..][n + 1..];
    }
  }

  /** Tokenizing the space-joined tokens of any string gives the same tokens back. */
  lemma {:induction false} TokenizeIsStable(word: Words, s: string)
    requires WordTable(word)
    ensures Tokenize(word, Join(Tokenize(word, s))) == Tokenize(word, s)
  {
    TokensAreLexemes(word, s);
    TokenizeJoined(word, Tokenize(word, s));
  }

  // ---------------------------------------------------------------- text round trip

  lemma {:induction false} PrintedLexemes(word: Words, t: Ast, v: Level)
    requires Names(t, x => IsPlain(word, x))
    ensures forall x :: x in Print(t, v) ==> IsLexeme(word, x)
    decreases t, Depth(v)
  {
    match t
    case Id(_) =>
    case Or(l, r) =>
      if v == AtOr { PrintedLexemes(word, l, AtOr); PrintedLexemes(word, r, AtAnd); }
      else { PrintedLexemes(word, t, AtOr); }
    case And(l, r) =>
      if v == AtOr || v == AtAnd { PrintedLexemes(word, l, AtAnd); PrintedLexemes(word, r, AtWith); }
      else { PrintedLexemes(word, t, AtOr); }
    case With(l, e) =>
      if v != AtAtom { PrintedLexemes(word, l, AtAtom); }
      else { PrintedLexemes(word, t, AtOr); }
  }

  lemma {:induction false} NamesImply(t: Ast, p: string -> bool, q: string -> bool)
    requires Names(t, p) && forall x :: p(x) ==> q(x)
    ensures Names(t, q)
  {
    match t
    case Id(_) =>
    case Or(l, r) => NamesImply(l, p, q); NamesImply(r, p, q);
    case And(l, r) => NamesImply(l, p, q); NamesImply(r, p, q);
    case With(l, _) => NamesImply(l, p, q);
  }

  lemma {:induction false} PlainIsName(word: Words, x: string)
    requires WordTable(word) && IsPlain(word, x)
    ensures IsName(x)
  {
    assert IsPlainChar(x[0]);
  }

  /**
   The whole way through text: a tree written out as a string, tokenized and parsed comes back
   unchanged exactly when the tokenizer takes each of its names as one identifier.
   */
  lemma {:induction false} TextRoundTrip(word: Words, t: Ast)
    requires WordTable(word)
    ensures Parse(Tokenize(word, Join(Print(t, AtOr)))) == Ok(t) <==> Names(t, x => IsPlain(word, x))
  {
    var plain := x => IsPlain(word, x);
    var text := Join(Print(t, AtOr));
    if Names(t, plain) {
      PrintedLexemes(word, t, AtOr);
      TokenizeJoined(word, Print(t, AtOr));
      forall x | plain(x) ensures IsName(x) { PlainIsName(word, x); }
      NamesImply(t, plain, IsName);
      ParsePrint(t);
    }
    if Parse(Tokenize(word, text)) == Ok(t) {
      ParserIsGrammar(Tokenize(word, text), t);
      TokensAreLexemes(word, text);
      DerivedNames(AtOr, Tokenize(word, text), t, plain);
    }
  }
}
