/**
 The recursive-descent parser for SPDX licence expressions, with the operators and precedence of
 section D.4 of Annex D of the SPDX Specification 2.3: WITH binds tightest and takes one exception
 identifier, AND comes next, OR last, both associate to the left, and parentheses group.  The module
 SpdxGrammar states the same language as derivation predicates (`DerivesOr` and its companions).
 */
module SpdxParser {

  // ---------------------------------------------------------------- tokens and trees

  datatype TokenKind = LParen | RParen | AndWord | OrWord | WithWord | Identifier

  function Kind(t: string): TokenKind {
    if t == "(" then LParen
    else if t == ")" then RParen
    else if t == "AND" then AndWord
    else if t == "OR" then OrWord
    else if t == "WITH" then WithWord
    else Identifier
  }

  datatype Ast =
    | Id(name: string)
    | And(left: Ast, right: Ast)
    | Or(left: Ast, right: Ast)
    | With(license: Ast, exception: string)

  datatype ParseError =
    | UnexpectedEnd
    | ExpectedException
    | ExpectedClosing
    | UnexpectedToken(token: string)
    | TrailingToken(token: string)

  datatype Result = Ok(node: Ast) | Err(error: ParseError)

  /** A tree together with the tokens it left over. */
  datatype Parsed = Done(node: Ast, rest: seq<string>) | Failed(error: ParseError)
  {
    function Result(): Result {
      if Done? then Ok(node) else Err(error)
    }
  }

  predicate Starts(ts: seq<string>, k: TokenKind) {
    ts != [] && Kind(ts[0]) == k
  }

  // ---------------------------------------------------------------- the parser on values

  function OrExpr(ts: seq<string>): (r: Parsed)
    ensures r.Done? ==> |r.rest| < |ts|
    ensures r.Failed? ==> !r.error.TrailingToken?
    decreases |ts|, 3
  {
    var first := AndExpr(ts);
    if first.Failed? then first else OrTail(first.node, first.rest)
  }

  function OrTail(left: Ast, ts: seq<string>): (r: Parsed)
    ensures r.Done? ==> |r.rest| <= |ts|
    ensures r.Failed? ==> !r.error.TrailingToken?
    decreases |ts|, 0
  {
    if Starts(ts, OrWord) then
      var next := AndExpr(ts[1..]);
      if next.Failed? then next else OrTail(Or(left, next.node), next.rest)
    else Done(left, ts)
  }

  function AndExpr(ts: seq<string>): (r: Parsed)
    ensures r.Done? ==> |r.rest| < |ts|
    ensures r.Failed? ==> !r.error.TrailingToken?
    decreases |ts|, 2
  {
    var first := WithExpr(ts);
    if first.Failed? then first else AndTail(first.node, first.rest)
  }

  function AndTail(left: Ast, ts: seq<string>): (r: Parsed)
    ensures r.Done? ==> |r.rest| <= |ts|
    ensures r.Failed? ==> !r.error.TrailingToken?
    decreases |ts|, 0
  {
    if Starts(ts, AndWord) then
      var next := WithExpr(ts[1..]);
      if next.Failed? then next else AndTail(And(left, next.node), next.rest)
    else Done(left, ts)
  }

  function WithExpr(ts: seq<string>): (r: Parsed)
    ensures r.Done? ==> |r.rest| < |ts|
    ensures r.Failed? ==> !r.error.TrailingToken?
    decreases |ts|, 1
  {
    var atom := Atom(ts);
    if atom.Failed? || !Starts(atom.rest, WithWord) then atom
    else if |atom.rest| == 1 then Failed(UnexpectedEnd)
    else if !Kind(atom.rest[1]).Identifier? then Failed(ExpectedException)
    else Done(With(atom.node, atom.rest[1]), atom.rest[2..])
  }

  function Atom(ts: seq<string>): (r: Parsed)
    ensures r.Done? ==> |r.rest| < |ts|
    ensures r.Failed? ==> !r.error.TrailingToken?
    decreases |ts|, 0
  {
    if ts == [] then Failed(UnexpectedEnd)
    else
      match Kind(ts[0])
      case LParen =>
        var inner := OrExpr(ts[1..]);
        if inner.Failed? then inner
        else if inner.rest == [] then Failed(UnexpectedEnd)
        else if !Starts(inner.rest, RParen) then Failed(ExpectedClosing)
        else Done(inner.node, inner.rest[1..])
      case Identifier => Done(Id(ts[0]), ts[1..])
      case _ => Failed(UnexpectedToken(ts[0]))
  }

  function Parse(ts: seq<string>): Result {
    var r := OrExpr(ts);
    if r.Failed? then Err(r.error)
    else if r.rest != [] then Err(TrailingToken(r.rest[0]))
    else Ok(r.node)
  }

  // ---------------------------------------------------------------- the parser as written

  /** The parser object: tokens, and a position that its methods advance. */
  class Parser {
    const tokens: seq<string>
    var pos: nat

    constructor (tokens: seq<string>)
      ensures this.tokens == tokens && pos == 0
    {
      this.tokens := tokens;
      this.pos := 0;
    }

    predicate Valid()
      reads this`pos
    {
      pos <= |tokens|
    }

    function Remaining(): (ts: seq<string>)
      requires Valid()
      reads this`pos
    {
      tokens[pos..]
    }

    function PeekIs(k: TokenKind): (b: bool)
      requires Valid()
      reads this`pos
      ensures b <==> Starts(Remaining(), k)
    {
      pos < |tokens| && Kind(tokens[pos]) == k
    }

    method Advance() returns (ok: bool, token: string)
      requires Valid()
      modifies this`pos
      ensures Valid()
      ensures ok <==> old(Remaining()) != []
      ensures ok ==> token == old(Remaining())[0] && Remaining() == old(Remaining())[1..]
      ensures ok ==> pos == old(pos) + 1
      ensures !ok ==> pos == old(pos)
    {
      if pos < |tokens| {
        ok, token := true, tokens[pos];
        pos := pos + 1;
      } else {
        ok, token := false, "";
      }
    }

    method ParseAll() returns (r: Result)
      requires Valid()
      modifies this`pos
      ensures r == Parse(old(Remaining()))
    {
      r := ParseOr();
      if r.Ok? && pos < |tokens| {
        r := Err(TrailingToken(tokens[pos]));
      }
    }

    method ParseOr() returns (r: Result)
      requires Valid()
      modifies this`pos
      ensures Valid()
      ensures r == OrExpr(old(Remaining())).Result()
      ensures r.Ok? ==> Remaining() == OrExpr(old(Remaining())).rest
      decreases |tokens| - pos, 3
    {
      r := ParseAnd();
      if r.Err? { return; }
      while PeekIs(OrWord)
        invariant Valid() && r.Ok? && pos > old(pos)
        invariant OrTail(r.node, Remaining()) == OrExpr(old(Remaining()))
        decreases |tokens| - pos
      {
        var left := r.node;
        var _, _ := Advance();
        r := ParseAnd();
        if r.Err? { return; }
        r := Ok(Or(left, r.node));
      }
    }

    method ParseAnd() returns (r: Result)
      requires Valid()
      modifies this`pos
      ensures Valid()
      ensures r == AndExpr(old(Remaining())).Result()
      ensures r.Ok? ==> Remaining() == AndExpr(old(Remaining())).rest
      decreases |tokens| - pos, 2
    {
      r := ParseWith();
      if r.Err? { return; }
      while PeekIs(AndWord)
        invariant Valid() && r.Ok? && pos > old(pos)
        invariant AndTail(r.node, Remaining()) == AndExpr(old(Remaining()))
        decreases |tokens| - pos
      {
        var left := r.node;
        var _, _ := Advance();
        r := ParseWith();
        if r.Err? { return; }
        r := Ok(And(left, r.node));
      }
    }

    method ParseWith() returns (r: Result)
      requires Valid()
      modifies this`pos
      ensures Valid()
      ensures r == WithExpr(old(Remaining())).Result()
      ensures r.Ok? ==> Remaining() == WithExpr(old(Remaining())).rest
      decreases |tokens| - pos, 1
    {
      r := ParseAtom();
      if r.Err? { return; }
      if PeekIs(WithWord) {
        var _, _ := Advance();
        var ok, exception := Advance();
        if !ok { return Err(UnexpectedEnd); }
        if !Kind(exception).Identifier? { return Err(ExpectedException); }
        return Ok(With(r.node, exception));
      }
    }

    method ParseAtom() returns (r: Result)
      requires Valid()
      modifies this`pos
      ensures Valid()
      ensures r == Atom(old(Remaining())).Result()
      ensures r.Ok? ==> Remaining() == Atom(old(Remaining())).rest
      decreases |tokens| - pos, 0
    {
      var ok, token := Advance();
      if !ok { return Err(UnexpectedEnd); }
      match Kind(token)
      case LParen =>
        r := ParseOr();
        if r.Err? { return; }
        var closed, close := Advance();
        if !closed { return Err(UnexpectedEnd); }
        if Kind(close) != RParen { return Err(ExpectedClosing); }
      case Identifier => return Ok(Id(token));
      case _ => return Err(UnexpectedToken(token));
    }
  }
}
