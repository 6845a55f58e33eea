/**
 Printing a tree back to tokens, with parentheses only where precedence or left association
 calls for them, and its relation to the parser.
 */
module SpdxPrint {
  import opened SpdxParser
  import opened SpdxGrammar

  /** The position a tree is printed in; a tree that does not fit there is parenthesised. */
  datatype Level = AtOr | AtAnd | AtWith | AtAtom

  function Depth(v: Level): nat {
    match v case AtOr => 0 case AtAnd => 1 case AtWith => 2 case AtAtom => 3
  }

  function Print(t: Ast, v: Level): seq<string>
    decreases t, Depth(v)
  {
    match t
    case Id(name) => [name]
    case Or(l, r) =>
      if v == AtOr then Print(l, AtOr) + (["OR"] + Print(r, AtAnd)) else Parens(Print(t, AtOr))
    case And(l, r) =>
      if v == AtOr || v == AtAnd then Print(l, AtAnd) + (["AND"] + Print(r, AtWith))
      else Parens(Print(t, AtOr))
    case With(l, e) =>
      if v != AtAtom then Print(l, AtAtom) + ["WITH", e] else Parens(Print(t, AtOr))
  }

  function Parens(ts: seq<string>): seq<string> {
    ["("] + ts + [")"]
  }

  /** Every name in the tree satisfies p. */
  predicate Names(t: Ast, p: string -> bool) {
    match t
    case Id(name) => p(name)
    case And(l, r) => Names(l, p) && Names(r, p)
    case Or(l, r) => Names(l, p) && Names(r, p)
    case With(l, e) => Names(l, p) && p(e)
  }

  predicate IsName(t: string) {
    Kind(t) == Identifier
  }

  ghost predicate Derives(v: Level, s: seq<string>, t: Ast) {
    match v
    case AtOr => DerivesOr(s, t)
    case AtAnd => DerivesAnd(s, t)
    case AtWith => DerivesWith(s, t)
    case AtAtom => DerivesAtom(s, t)
  }

  /** A derivation at a tighter level is one at every looser level. */
  lemma {:induction false} Climb(v: Level, w: Level, s: seq<string>, t: Ast)
    requires Derives(v, s, t) && Depth(w) <= Depth(v)
    ensures Derives(w, s, t)
  {
  }

  lemma {:induction false} PrintDerives(t: Ast, v: Level)
    requires Names(t, IsName)
    ensures Derives(v, Print(t, v), t)
    decreases t, 1 + Depth(v)
  {
    var own := OwnLevel(t);
    if Depth(v) <= Depth(own) {
      PrintDerivesOwn(t);
      PrintAtOwn(t, v);
      Climb(own, v, Print(t, own), t);
    } else {
      PrintDerives(t, AtOr);
      Parenthesised("(", Print(t, AtOr), ")", t);
      Climb(AtAtom, v, Print(t, v), t);
    }
  }

  /** The tightest level at which a tree needs no parentheses. */
  function OwnLevel(t: Ast): Level {
    match t case Id(_) => AtAtom case With(_, _) => AtWith case And(_, _) => AtAnd case Or(_, _) => AtOr
  }

  lemma {:induction false} PrintAtOwn(t: Ast, v: Level)
    requires Depth(v) <= Depth(OwnLevel(t))
    ensures Print(t, v) == Print(t, OwnLevel(t))
  {
  }

  lemma {:induction false} PrintDerivesOwn(t: Ast)
    requires Names(t, IsName)
    ensures Derives(OwnLevel(t), Print(t, OwnLevel(t)), t)
    decreases t, 0
  {
    match t
    case Id(_) =>
    case Or(l, r) =>
      PrintDerives(l, AtOr);
      PrintDerives(r, AtAnd);
      OrJoined(Print(l, AtOr), "OR", Print(r, AtAnd), t);
    case And(l, r) =>
      PrintDerives(l, AtAnd);
      PrintDerives(r, AtWith);
      AndJoined(Print(l, AtAnd), "AND", Print(r, AtWith), t);
    case With(l, e) =>
      PrintDerives(l, AtAtom);
      WithJoined(Print(l, AtAtom), "WITH", e, l);
  }

  /** Names of a derived tree are identifiers found among the tokens. */
  lemma {:induction false} DerivedNames(v: Level, s: seq<string>, t: Ast, p: string -> bool)
    requires Derives(v, s, t)
    requires forall x :: x in s && IsName(x) ==> p(x)
    ensures Names(t, p)
    decreases |s|, 3 - Depth(v)
  {
    match v
    case AtOr =>
      if DerivesAnd(s, t) {
        DerivedNames(AtAnd, s, t, p);
      } else {
        assert DerivesOr(s, t);
        var k :| 0 <= k < |s| && SplitsOr(s, k, t);
        DerivedNames(AtOr, s[..k], t.left, p);
        DerivedNames(AtAnd, s[k + 1..], t.right, p);
      }
    case AtAnd =>
      if DerivesWith(s, t) {
        DerivedNames(AtWith, s, t, p);
      } else {
        assert DerivesAnd(s, t);
        var k :| 0 <= k < |s| && SplitsAnd(s, k, t);
        DerivedNames(AtAnd, s[..k], t.left, p);
        DerivedNames(AtWith, s[k + 1..], t.right, p);
      }
    case AtWith =>
      if DerivesAtom(s, t) {
        DerivedNames(AtAtom, s, t, p);
      } else {
        DerivedNames(AtAtom, s[..|s| - 2], t.license, p);
      }
    case AtAtom =>
      if |s| != 1 {
        DerivedNames(AtOr, s[1..|s| - 1], t, p);
      }
  }

  /** Printing then parsing is the identity on exactly the trees whose names are identifiers. */
  lemma {:induction false} ParsePrint(t: Ast)
    ensures Parse(Print(t, AtOr)) == Ok(t) <==> Names(t, IsName)
  {
    ParserIsGrammar(Print(t, AtOr), t);
    if Names(t, IsName) {
      PrintDerives(t, AtOr);
    }
    if Parse(Print(t, AtOr)) == Ok(t) {
      DerivedNames(AtOr, Print(t, AtOr), t, IsName);
    }
  }

  lemma {:induction false} PrintLengths(t: Ast, v: Level)
    ensures |Print(t, AtOr)| <= |Print(t, v)| <= |Print(t, AtOr)| + 2
    ensures |Print(t, AtAnd)| <= |Print(t, AtWith)| <= |Print(t, AtAtom)|
  {
  }

  /** No derivation of a tree is shorter than its printed form: no parenthesis is superfluous. */
  lemma {:induction false} PrintIsShortest(v: Level, s: seq<string>, t: Ast)
    requires Derives(v, s, t)
    ensures |Print(t, v)| <= |s|
    decreases |s|, 3 - Depth(v)
  {
    match v
    case AtOr =>
      if DerivesAnd(s, t) {
        PrintIsShortest(AtAnd, s, t);
        PrintLengths(t, AtAnd);
      } else {
        assert DerivesOr(s, t);
        var k :| 0 <= k < |s| && SplitsOr(s, k, t);
        PrintIsShortest(AtOr, s[..k], t.left);
        PrintIsShortest(AtAnd, s[k + 1..], t.right);
      }
    case AtAnd =>
      if DerivesWith(s, t) {
        PrintIsShortest(AtWith, s, t);
        PrintLengths(t, AtWith);
      } else {
        assert DerivesAnd(s, t);
        var k :| 0 <= k < |s| && SplitsAnd(s, k, t);
        PrintIsShortest(AtAnd, s[..k], t.left);
        PrintIsShortest(AtWith, s[k + 1..], t.right);
      }
    case AtWith =>
      if DerivesAtom(s, t) {
        PrintIsShortest(AtAtom, s, t);
        PrintLengths(t, AtAtom);
      } else {
        PrintIsShortest(AtAtom, s[..|s| - 2], t.license);
      }
    case AtAtom =>
      if |s| != 1 {
        PrintIsShortest(AtOr, s[1..|s| - 1], t);
        PrintLengths(t, AtAtom);
      }
  }
}
