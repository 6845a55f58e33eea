/**
 The line tests of the .trivyignore.yaml reader, and the round trip from written text.
 */
module Trivyignore {
  import opened Basics
  import opened PythonText
  import opened TrivyLayout

  // ---------------------------------------------------------------- the line tests

  /** The longest run of \S at the front. */
  function Word(s: string): string {
    if s == "" || IsSpace(s[0]) then "" else [s[0]] + Word(s[1..])
  }

  /** What follows  \s*-\s*  at the front of the line, if the line starts so. */
  function AfterDash(line: string): Option<string> {
    var a := LStrip(line);
    if a != "" && a[0] == '-' then Some(LStrip(a[1..])) else None
  }

  /** \s*-\s*id:\s*(\S+) */
  function MatchId(line: string): Option<string> {
    var b := AfterDash(line);
    if b.Some? && "id:" <= b.value && Word(LStrip(b.value[3..])) != ""
    then Some(Word(LStrip(b.value[3..]))) else None
  }

  /** \s*purls:\s*$ */
  predicate MatchPurlsKey(line: string) {
    var a := LStrip(line);
    "purls:" <= a && LStrip(a[6..]) == ""
  }

  /** \s*-\s*(pkg:\S+) */
  function MatchPurl(line: string): Option<string> {
    var b := AfterDash(line);
    if b.Some? && "pkg:" <= b.value && Word(b.value[4..]) != ""
    then Some("pkg:" + Word(b.value[4..])) else None
  }

  /** The answers of the tests, in the order in which they are asked. */
  function Decide(
    blank: bool, topLevel: bool, vulnerabilities: bool, id: Option<string>, purlsKey: bool, purl: Option<string>,
    comment: bool): LineKind
  {
    if blank then Blank
    else if topLevel then TopLevel(vulnerabilities)
    else if id.Some? then IdLine(id.value)
    else if purlsKey then PurlsKey
    else if purl.Some? then PurlLine(purl.value)
    else if comment then Comment
    else Other
  }

  function Classify(line: string): LineKind {
    Decide(Strip(line) == "", line != "" && !IsSpace(line[0]), Strip(line) == "vulnerabilities:",
           MatchId(line), MatchPurlsKey(line), MatchPurl(line), StartsWith(LStrip(line), "#"))
  }

  // ---------------------------------------------------------------- written lines

  predicate Spaces(s: string) {
    forall i :: 0 <= i < |s| ==> IsSpace(s[i])
  }

  predicate Solid(s: string) {
    s != "" && forall i :: 0 <= i < |s| ==> !IsSpace(s[i])
  }

  /** Nothing, or something set off by white space. */
  predicate Detached(s: string) {
    s == "" || IsSpace(s[0])
  }

  lemma {:induction false} LStripOver(spaces: string, text: string)
    requires Spaces(spaces) && (text == "" || !IsSpace(text[0]))
    ensures LStrip(spaces + text) == text
  {
    LStripSpaces(spaces, text);
  }

  lemma {:induction false} WordOf(word: string, tail: string)
    requires (word == "" || Solid(word)) && Detached(tail)
    ensures Word(word + tail) == word
  {
    if word == "" {
      assert word + tail == tail;
    } else {
      assert (word + tail)[1..] == word[1..] + tail;
      WordOf(word[1..], tail);
      assert [word[0]] + word[1..] == word;
    }
  }

  /** An indented line with something on it is neither blank nor a top-level key. */
  lemma {:induction false} Indented(indent: string, text: string)
    requires Spaces(indent) && indent != "" && text != "" && !IsSpace(text[0])
    ensures Strip(indent + text) != "" && IsSpace((indent + text)[0])
    ensures LStrip(indent + text) == text
  {
    LStripOver(indent, text);
    RStripKeepsPrefix(text, text[..1]);
  }

  function DashLine(indent: string, gap: string, text: string): string {
    indent + ("-" + (gap + text))
  }

  lemma {:induction false} DashLineSplits(indent: string, gap: string, text: string)
    requires Spaces(indent) && indent != "" && Spaces(gap) && text != "" && !IsSpace(text[0])
    ensures AfterDash(DashLine(indent, gap, text)) == Some(text)
    ensures Strip(DashLine(indent, gap, text)) != "" && IsSpace(DashLine(indent, gap, text)[0])
    ensures !MatchPurlsKey(DashLine(indent, gap, text))
  {
    var rest := "-" + (gap + text);
    Indented(indent, rest);
    assert rest[0] == '-' && rest[1..] == gap + text;
    LStripOver(gap, text);
    NotPurlsKey(DashLine(indent, gap, text), rest);
  }

  lemma {:induction false} NotPurlsKey(line: string, text: string)
    requires LStrip(line) == text && text != "" && text[0] != 'p'
    ensures !MatchPurlsKey(line)
  {
    assert "purls:"[0] == 'p';
  }

  /** "  - id: CVE-2024-1 ..." */
  function IdText(indent: string, gap: string, gap2: string, id: string, tail: string): string {
    DashLine(indent, gap, "id:" + (gap2 + (id + tail)))
  }

  lemma {:induction false} IdTextKind(indent: string, gap: string, gap2: string, id: string, tail: string)
    requires Spaces(indent) && indent != "" && Spaces(gap) && Spaces(gap2) && Solid(id) && Detached(tail)
    ensures Classify(IdText(indent, gap, gap2, id, tail)) == IdLine(id)
  {
    var text := "id:" + (gap2 + (id + tail));
    DashLineSplits(indent, gap, text);
    assert "id:" <= text && text[3..] == gap2 + (id + tail);
    LStripOver(gap2, id + tail);
    WordOf(id, tail);
  }

  /** "    purls:" */
  function PurlsText(indent: string, tail: string): string {
    indent + ("purls:" + tail)
  }

  lemma {:induction false} PurlsTextKind(indent: string, tail: string)
    requires Spaces(indent) && indent != "" && Spaces(tail)
    ensures Classify(PurlsText(indent, tail)) == PurlsKey
  {
    var text := "purls:" + tail;
    assert text[0] == 'p' && text[6..] == tail;
    Indented(indent, text);
    BlankTail(tail);
    NotDash(PurlsText(indent, tail), text);
  }

  lemma {:induction false} BlankTail(tail: string)
    requires Spaces(tail)
    ensures LStrip(tail) == ""
  {
    assert tail + "" == tail;
    LStripOver(tail, "");
  }

  lemma {:induction false} NotDash(line: string, text: string)
    requires LStrip(line) == text && text != "" && text[0] != '-'
    ensures MatchId(line) == None
  {
  }

  /** "      - pkg:deb/debian/zlib ..." */
  function PurlText(indent: string, gap: string, name: string, tail: string): string {
    DashLine(indent, gap, "pkg:" + (name + tail))
  }

  lemma {:induction false} PurlTextKind(indent: string, gap: string, name: string, tail: string)
    requires Spaces(indent) && indent != "" && Spaces(gap) && Solid(name) && Detached(tail)
    ensures Classify(PurlText(indent, gap, name, tail)) == PurlLine("pkg:" + name)
  {
    var text := "pkg:" + (name + tail);
    DashLineSplits(indent, gap, text);
    var line := DashLine(indent, gap, text);
    PurlMatches(line, text, name, tail);
  }

  lemma {:induction false} PurlMatches(line: string, text: string, name: string, tail: string)
    requires text == "pkg:" + (name + tail) && Solid(name) && Detached(tail)
    requires AfterDash(line) == Some(text) && Strip(line) != "" && IsSpace(line[0]) && !MatchPurlsKey(line)
    ensures Classify(line) == PurlLine("pkg:" + name)
  {
    NotId(line, text);
    assert text[4..] == name + tail;
    WordOf(name, tail);
    assert MatchPurl(line) == Some("pkg:" + name);
  }

  lemma {:induction false} NotId(line: string, text: string)
    requires AfterDash(line) == Some(text) && text != "" && text[0] == 'p'
    ensures MatchId(line) == None
  {
    assert "id:"[0] == 'i';
  }

  lemma {:induction false} CommentKind(indent: string, text: string)
    requires Spaces(indent) && indent != "" && "#" <= text
    ensures Classify(indent + text) == Comment
  {
    Indented(indent, text);
    assert text[0] == '#';
    NotPurlsKey(indent + text, text);
    NotDash(indent + text, text);
  }

  lemma {:induction false} BlankKind(spaces: string)
    requires Spaces(spaces)
    ensures Classify(spaces) == Blank
  {
    assert spaces + "" == spaces;
    LStripOver(spaces, "");
  }

  // ---------------------------------------------------------------- the tests, both ways

  ghost predicate WrittenAsId(line: string, id: string) {
    exists indent, gap, gap2, tail ::
      Spaces(indent) && Spaces(gap) && Spaces(gap2) && Detached(tail) && line == IdText(indent, gap, gap2, id, tail)
  }

  ghost predicate WrittenAsPurl(line: string, name: string) {
    exists indent, gap, tail ::
      Spaces(indent) && Spaces(gap) && Detached(tail) && line == PurlText(indent, gap, name, tail)
  }

  ghost predicate WrittenAsKey(line: string) {
    exists indent, tail :: Spaces(indent) && Spaces(tail) && line == PurlsText(indent, tail)
  }

  /** Text cut where its leading white space ends. */
  lemma {:induction false} Margins(s: string) returns (spaces: string)
    ensures Spaces(spaces) && s == spaces + LStrip(s)
  {
    var n := |s| - |LStrip(s)|;
    spaces := s[..n];
    CutAt(s, LStrip(s), n);
    forall i | 0 <= i < |spaces| ensures IsSpace(spaces[i]) {
      LStripRest(s, i);
    }
  }

  lemma {:induction false} CutAt(s: string, r: string, n: nat)
    requires n <= |s| && s[n..] == r
    ensures s == s[..n] + r
  {
  }

  lemma {:induction false} WordEnds(s: string)
    ensures Word(s) <= s && Detached(s[|Word(s)|..]) && (Word(s) != "" ==> Solid(Word(s)))
  {
    if s != "" && !IsSpace(s[0]) {
      WordEnds(s[1..]);
      var w := Word(s[1..]);
      assert s[1..][|w|..] == s[|w| + 1..];
      assert [s[0]] + w <= [s[0]] + s[1..] == s;
    }
  }

  /** A dash item, taken apart and put together again. */
  lemma {:induction false} DashParts(line: string, text: string) returns (indent: string, gap: string)
    requires AfterDash(line) == Some(text)
    ensures Spaces(indent) && Spaces(gap) && line == DashLine(indent, gap, text)
  {
    var a := LStrip(line);
    indent := Margins(line);
    gap := Margins(a[1..]);
    DashRebuilt(a, gap + text);
  }

  lemma {:induction false} DashRebuilt(a: string, rest: string)
    requires a != "" && a[0] == '-' && a[1..] == rest
    ensures a == "-" + rest
  {
  }

  lemma {:induction false} DashFound(indent: string, gap: string, text: string)
    requires Spaces(indent) && Spaces(gap) && text != "" && !IsSpace(text[0])
    ensures AfterDash(DashLine(indent, gap, text)) == Some(text)
  {
    var rest := "-" + (gap + text);
    LStripOver(indent, rest);
    assert rest[1..] == gap + text;
    LStripOver(gap, text);
  }

  /** The id pattern matches with this id exactly when the line is written so. */
  lemma {:induction false} IdMeaning(line: string, id: string)
    requires Solid(id)
    ensures MatchId(line) == Some(id) <==> WrittenAsId(line, id)
  {
    if MatchId(line) == Some(id) {
      var text := AfterDash(line).value;
      var indent, gap := DashParts(line, text);
      var gap2 := Margins(text[3..]);
      var rest := LStrip(text[3..]);
      WordEnds(rest);
      IdRebuilt(text, gap2, id, rest);
      assert line == IdText(indent, gap, gap2, id, rest[|id|..]);
    }
    forall indent, gap, gap2, tail |
      Spaces(indent) && Spaces(gap) && Spaces(gap2) && Detached(tail) && line == IdText(indent, gap, gap2, id, tail)
      ensures MatchId(line) == Some(id)
    {
      IdFound(indent, gap, gap2, id, tail);
    }
  }

  lemma {:induction false} IdRebuilt(text: string, gap2: string, id: string, rest: string)
    requires "id:" <= text && text[3..] == gap2 + rest && id <= rest
    ensures text == "id:" + (gap2 + (id + rest[|id|..]))
  {
    assert rest == id + rest[|id|..];
    assert text == "id:" + text[3..];
  }

  lemma {:induction false} IdFound(indent: string, gap: string, gap2: string, id: string, tail: string)
    requires Spaces(indent) && Spaces(gap) && Spaces(gap2) && Solid(id) && Detached(tail)
    ensures MatchId(IdText(indent, gap, gap2, id, tail)) == Some(id)
  {
    var text := "id:" + (gap2 + (id + tail));
    DashFound(indent, gap, text);
    assert "id:" <= text && text[3..] == gap2 + (id + tail);
    LStripOver(gap2, id + tail);
    WordOf(id, tail);
  }

  /** The purl pattern matches with this purl exactly when the line is written so. */
  lemma {:induction false} PurlMeaning(line: string, name: string)
    requires Solid(name)
    ensures MatchPurl(line) == Some("pkg:" + name) <==> WrittenAsPurl(line, name)
  {
    if MatchPurl(line) == Some("pkg:" + name) {
      var indent, gap, tail := PurlParts(line, name);
    }
    forall indent, gap, tail |
      Spaces(indent) && Spaces(gap) && Detached(tail) && line == PurlText(indent, gap, name, tail)
      ensures MatchPurl(line) == Some("pkg:" + name)
    {
      PurlFound(indent, gap, name, tail);
    }
  }

  lemma {:induction false} PurlParts(line: string, name: string) returns (indent: string, gap: string, tail: string)
    requires MatchPurl(line) == Some("pkg:" + name)
    ensures Spaces(indent) && Spaces(gap) && Detached(tail) && line == PurlText(indent, gap, name, tail)
  {
    var text := AfterDash(line).value;
    indent, gap := DashParts(line, text);
    var rest := text[4..];
    WordEnds(rest);
    SamePurl(Word(rest), name);
    tail := rest[|name|..];
    PurlRebuilt(text, name, rest);
  }

  lemma {:induction false} PurlRebuilt(text: string, name: string, rest: string)
    requires "pkg:" <= text && text[4..] == rest && name <= rest
    ensures text == "pkg:" + (name + rest[|name|..])
  {
    assert rest == name + rest[|name|..];
    assert text == "pkg:" + text[4..];
  }

  lemma {:induction false} SamePurl(a: string, b: string)
    requires "pkg:" + a == "pkg:" + b
    ensures a == b
  {
    assert ("pkg:" + a)[4..] == a && ("pkg:" + b)[4..] == b;
  }

  lemma {:induction false} PurlFound(indent: string, gap: string, name: string, tail: string)
    requires Spaces(indent) && Spaces(gap) && Solid(name) && Detached(tail)
    ensures MatchPurl(PurlText(indent, gap, name, tail)) == Some("pkg:" + name)
  {
    var text := "pkg:" + (name + tail);
    DashFound(indent, gap, text);
    assert "pkg:" <= text && text[4..] == name + tail;
    WordOf(name, tail);
  }

  /** A line is a purls key exactly when nothing but white space stands around the key. */
  lemma {:induction false} PurlsKeyMeaning(line: string)
    ensures MatchPurlsKey(line) <==> WrittenAsKey(line)
  {
    if MatchPurlsKey(line) {
      var a := LStrip(line);
      var indent := Margins(line);
      var tail := Margins(a[6..]);
      assert tail + "" == tail;
      assert a == "purls:" + tail;
      assert line == PurlsText(indent, tail);
    }
    forall indent, tail | Spaces(indent) && Spaces(tail) && line == PurlsText(indent, tail)
      ensures MatchPurlsKey(line)
    {
      var text := "purls:" + tail;
      assert text[0] == 'p' && text[6..] == tail;
      LStripOver(indent, text);
      BlankTail(tail);
    }
  }

  /** A line of white space is blank, and no other line is. */
  lemma {:induction false} BlankMeaning(line: string)
    ensures Classify(line) == Blank <==> Spaces(line)
  {
    if Spaces(line) {
      BlankKind(line);
    }
    if Strip(line) == "" {
      forall i | 0 <= i < |line| ensures IsSpace(line[i]) {
        BlankThroughout(line, i);
      }
    }
  }

  lemma {:induction false} BlankThroughout(line: string, i: nat)
    requires Strip(line) == "" && i < |line|
    ensures IsSpace(line[i])
  {
    var a := LStrip(line);
    if i < |line| - |a| {
      LStripRest(line, i);
    } else {
      RStripRest(a, i - (|line| - |a|));
    }
  }

  lemma {:induction false} SomethingThere(line: string, c: char)
    requires LStrip(line) != "" && LStrip(line)[0] == c
    ensures Strip(line) != ""
  {
    var a := LStrip(line);
    RStripKeepsPrefix(a, a[..1]);
  }

  /** What begins with what: no two of the tests for indented lines accept the same line. */
  lemma {:induction false} TestsDisjoint(line: string)
    ensures MatchId(line).Some? || MatchPurl(line).Some? ==> LStrip(line) != "" && LStrip(line)[0] == '-'
    ensures MatchPurlsKey(line) ==> LStrip(line) != "" && LStrip(line)[0] == 'p'
    ensures MatchId(line).Some? ==> MatchPurl(line).None?
  {
    if MatchPurlsKey(line) {
      assert LStrip(line)[0] == "purls:"[0];
    }
    if MatchId(line).Some? {
      assert AfterDash(line).value[0] == "id:"[0] != "pkg:"[0];
    }
  }

  /** On an indented line the order of the tests does not matter. */
  lemma {:induction false} KindByTests(line: string, id: Option<string>, key: bool, purl: Option<string>)
    requires line != "" && IsSpace(line[0])
    requires id == MatchId(line) && key == MatchPurlsKey(line) && purl == MatchPurl(line)
    ensures id.Some? ==> Classify(line) == IdLine(id.value)
    ensures key ==> Classify(line) == PurlsKey
    ensures purl.Some? ==> Classify(line) == PurlLine(purl.value)
    ensures "#" <= LStrip(line) ==> Classify(line) == Comment
    ensures id.None? && !key && purl.None? && !("#" <= LStrip(line)) ==> Classify(line) in {Blank, Other}
  {
    TestsDisjoint(line);
    if LStrip(line) != "" {
      SomethingThere(line, LStrip(line)[0]);
    }
  }

  lemma {:induction false} IdIsWord(line: string)
    requires MatchId(line).Some?
    ensures Solid(MatchId(line).value)
  {
    WordEnds(LStrip(AfterDash(line).value[3..]));
  }

  lemma {:induction false} PurlIsWord(line: string)
    requires MatchPurl(line).Some?
    ensures "pkg:" <= MatchPurl(line).value && Solid(MatchPurl(line).value[4..])
  {
    var rest := AfterDash(line).value[4..];
    WordEnds(rest);
    BehindPkg(MatchPurl(line).value, Word(rest));
  }

  lemma {:induction false} BehindPkg(purl: string, w: string)
    requires purl == "pkg:" + w
    ensures "pkg:" <= purl && purl[4..] == w
  {
  }

  lemma {:induction false} DecideSource(
    blank: bool, topLevel: bool, vulnerabilities: bool, id: Option<string>, purlsKey: bool, purl: Option<string>,
    comment: bool, k: LineKind)
    requires k == Decide(blank, topLevel, vulnerabilities, id, purlsKey, purl, comment)
    ensures k.IdLine? ==> id == Some(k.id)
    ensures k.PurlLine? ==> purl == Some(k.purl)
  {
  }

  /** Every id read is a word, and every purl is one behind "pkg:". */
  lemma {:induction false} KindWords(line: string)
    ensures Classify(line).IdLine? ==> Solid(Classify(line).id)
    ensures Classify(line).PurlLine? ==> "pkg:" <= Classify(line).purl && Solid(Classify(line).purl[4..])
  {
    DecideSource(Strip(line) == "", line != "" && !IsSpace(line[0]), Strip(line) == "vulnerabilities:",
                 MatchId(line), MatchPurlsKey(line), MatchPurl(line), StartsWith(LStrip(line), "#"), Classify(line));
    if Classify(line).IdLine? {
      IdIsWord(line);
    } else if Classify(line).PurlLine? {
      PurlIsWord(line);
    }
  }

  /** The kind of an indented line, told by how it is written. */
  lemma {:induction false} KindMeaning(line: string, word: string)
    requires line != "" && IsSpace(line[0]) && Solid(word)
    ensures Classify(line) == IdLine(word) <==> WrittenAsId(line, word)
    ensures Classify(line) == PurlLine("pkg:" + word) <==> WrittenAsPurl(line, word)
    ensures Classify(line) == PurlsKey <==> WrittenAsKey(line)
    ensures Classify(line) == Comment <==> "#" <= LStrip(line)
  {
    KindByTests(line, MatchId(line), MatchPurlsKey(line), MatchPurl(line));
    IdMeaning(line, word);
    PurlMeaning(line, word);
    PurlsKeyMeaning(line);
  }

  /** The section's key, with white space behind it at most, and no other line opens the section. */
  lemma {:induction false} TopLevelMeaning(line: string)
    requires line != "" && !IsSpace(line[0])
    ensures Classify(line) == TopLevel("vulnerabilities:" <= line && Spaces(line[16..]))
  {
    KeyMeaning(line, "vulnerabilities:");
    RStripKeepsPrefix(line, line[..1]);
  }

  lemma {:induction false} KeyMeaning(line: string, key: string)
    requires line != "" && !IsSpace(line[0])
    requires key != "" && !IsSpace(key[|key| - 1])
    ensures Strip(line) == key <==> key <= line && Spaces(line[|key|..])
  {
    if Strip(line) == key {
      forall i | 0 <= i < |line| - |key| ensures IsSpace(line[|key|..][i]) {
        RStripRest(line, |key| + i);
      }
    }
    if key <= line && Spaces(line[|key|..]) {
      assert line == key + line[|key|..];
      RStripOver(key, line[|key|..]);
    }
  }

  /** "vulnerabilities:" */
  function SectionKey(tail: string): string {
    "vulnerabilities:" + tail
  }

  lemma {:induction false} SectionKeyKind(tail: string)
    requires Spaces(tail)
    ensures Classify(SectionKey(tail)) == TopLevel(true)
  {
    var line := SectionKey(tail);
    assert line[0] == 'v' && line[16..] == tail;
    TopLevelMeaning(line);
  }

  /** A comment that starts in the first column is taken for a top-level key. */
  lemma {:induction false} ColumnZeroCommentKind(text: string)
    requires "#" <= text
    ensures Classify(text) == TopLevel(false)
  {
    StripKeepsPrefix(text, "#");
    assert "vulnerabilities:"[0] != '#';
    assert Strip(text)[0] == '#';
  }

  /** At the level of text: blank lines and indented comments can be put anywhere without effect. */
  lemma {:induction false} NotesAreFree(a: seq<string>, indent: string, text: string, b: seq<string>)
    requires Spaces(indent) && (text == "" || ("#" <= text && indent != ""))
    ensures Read(Classify, START, a + ([indent + text] + b)) == Read(Classify, START, a + b)
  {
    if text == "" {
      assert indent + text == indent;
      BlankKind(indent);
    } else {
      CommentKind(indent, text);
    }
    CommentsAreFree(Classify, a, indent + text, b);
  }

  // ---------------------------------------------------------------- the round trip

  predicate IsNote(line: string) {
    Classify(line) == Comment || Classify(line) == Blank
  }

  /** A purl, given without its "pkg:", with the lines before it and what stands around it on its own. */
  datatype PurlDoc = PurlDoc(notes: seq<string>, indent: string, gap: string, name: string, tail: string)

  /** The purls of an entry: the key, the purls, the lines after the last one, and further keys. */
  datatype PurlList = PurlList(
    indent: string, tail: string, purls: seq<PurlDoc>, notes: seq<string>, after: seq<string>)

  /** An entry to be written: its id line, the lines below it, and its purls if it lists any. */
  datatype Written = Written(
    indent: string, gap: string, gap2: string, id: string, tail: string,
    before: seq<string>, list: Option<PurlList>)

  function PurlLineOf(p: PurlDoc): string {
    PurlText(p.indent, p.gap, p.name, p.tail)
  }

  function ItemLines(purls: seq<PurlDoc>, notes: seq<string>): seq<string> {
    if purls == [] then notes
    else purls[0].notes + ([PurlLineOf(purls[0])] + ItemLines(purls[1..], notes))
  }

  function DocOf(w: Written): EntryDoc {
    var idLine := IdText(w.indent, w.gap, w.gap2, w.id, w.tail);
    match w.list
    case None => EntryDoc(idLine, w.before, None, [], [])
    case Some(l) =>
      EntryDoc(idLine, w.before, Some(PurlsText(l.indent, l.tail)), ItemLines(l.purls, l.notes), l.after)
  }

  function Names(purls: seq<PurlDoc>): seq<string> {
    if purls == [] then [] else ["pkg:" + purls[0].name] + Names(purls[1..])
  }

  /** What the written entry says. */
  function EntrySaid(w: Written): Entry {
    Entry(w.id, if w.list.Some? then Names(w.list.value.purls) else [])
  }

  predicate Margin(s: string) {
    Spaces(s) && s != ""
  }

  ghost predicate ValidNotes(notes: seq<string>) {
    forall i :: 0 <= i < |notes| ==> IsNote(notes[i])
  }

  ghost predicate ValidPurl(p: PurlDoc) {
    ValidNotes(p.notes) && Margin(p.indent) && Spaces(p.gap) && Solid(p.name) && Detached(p.tail)
  }

  ghost predicate ValidPurls(purls: seq<PurlDoc>) {
    forall i :: 0 <= i < |purls| ==> ValidPurl(purls[i])
  }

  ghost predicate ValidList(l: PurlList) {
    && Margin(l.indent) && Spaces(l.tail)
    && ValidPurls(l.purls) && ValidNotes(l.notes)
    && AllNeutral(Classify, l.after) && (l.after != [] ==> Classify(l.after[0]) == Other)
  }

  ghost predicate ValidWritten(w: Written) {
    && Margin(w.indent) && Spaces(w.gap) && Spaces(w.gap2) && Solid(w.id) && Detached(w.tail)
    && AllNeutral(Classify, w.before)
    && (w.list.Some? ==> ValidList(w.list.value))
  }

  lemma {:induction false} NotesOnly(f: Classifier, notes: seq<string>, rest: seq<string>)
    requires forall i :: 0 <= i < |notes| ==> f(notes[i]) == Comment || f(notes[i]) == Blank
    ensures Purls(f, notes + rest) == Purls(f, rest)
  {
    if notes == [] {
      assert notes + rest == rest;
    } else {
      assert (notes + rest)[1..] == notes[1..] + rest;
      NotesOnly(f, notes[1..], rest);
    }
  }

  lemma {:induction false} ItemLinesSay(purls: seq<PurlDoc>, notes: seq<string>)
    requires ValidPurls(purls) && ValidNotes(notes)
    ensures Purls(Classify, ItemLines(purls, notes)) == Names(purls)
    ensures forall i :: 0 <= i < |ItemLines(purls, notes)| ==> IsItem(Classify(ItemLines(purls, notes)[i]))
  {
    if purls == [] {
      NotesOnly(Classify, notes, []);
      assert notes + [] == notes;
    } else {
      var p := purls[0];
      ItemLinesSay(purls[1..], notes);
      assert ValidPurl(p);
      PurlTextKind(p.indent, p.gap, p.name, p.tail);
      ItemLinesFold(Classify, p.notes, PurlLineOf(p), ItemLines(purls[1..], notes));
    }
  }

  lemma {:induction false} ItemLinesFold(f: Classifier, notes: seq<string>, line: string, more: seq<string>)
    requires forall i :: 0 <= i < |notes| ==> f(notes[i]) == Comment || f(notes[i]) == Blank
    requires f(line).PurlLine? && forall i :: 0 <= i < |more| ==> IsItem(f(more[i]))
    ensures Purls(f, notes + ([line] + more)) == [f(line).purl] + Purls(f, more)
    ensures forall i :: 0 <= i < |notes + ([line] + more)| ==> IsItem(f((notes + ([line] + more))[i]))
  {
    NotesOnly(f, notes, [line] + more);
    assert ([line] + more)[1..] == more;
  }

  /** The same for any classifier that takes the written lines for what they are. */
  lemma {:induction false} WrittenVia(f: Classifier, w: Written)
    requires f(IdText(w.indent, w.gap, w.gap2, w.id, w.tail)) == IdLine(w.id) && AllNeutral(f, w.before)
    requires w.list.Some? ==>
      var l := w.list.value;
      && f(PurlsText(l.indent, l.tail)) == PurlsKey
      && (forall i :: 0 <= i < |ItemLines(l.purls, l.notes)| ==> IsItem(f(ItemLines(l.purls, l.notes)[i])))
      && AllNeutral(f, l.after) && (l.after != [] ==> f(l.after[0]) == Other)
      && Purls(f, ItemLines(l.purls, l.notes)) == Names(l.purls)
    ensures ValidEntry(f, DocOf(w)) && EntryOf(f, DocOf(w)) == EntrySaid(w)
  {
  }

  lemma {:induction false} WrittenEntry(w: Written)
    requires ValidWritten(w)
    ensures ValidEntry(Classify, DocOf(w))
    ensures EntryOf(Classify, DocOf(w)) == EntrySaid(w)
  {
    IdTextKind(w.indent, w.gap, w.gap2, w.id, w.tail);
    if w.list.Some? {
      var l := w.list.value;
      PurlsTextKind(l.indent, l.tail);
      ItemLinesSay(l.purls, l.notes);
    }
    WrittenVia(Classify, w);
  }

  function DocsOf(ws: seq<Written>): seq<EntryDoc> {
    if ws == [] then [] else [DocOf(ws[0])] + DocsOf(ws[1..])
  }

  function ListOf(ws: seq<Written>): seq<Entry> {
    if ws == [] then [] else [EntrySaid(ws[0])] + ListOf(ws[1..])
  }

  lemma {:induction false} WrittenEntries(ws: seq<Written>)
    requires forall i :: 0 <= i < |ws| ==> ValidWritten(ws[i])
    ensures forall i :: 0 <= i < |DocsOf(ws)| ==> ValidEntry(Classify, DocsOf(ws)[i])
    ensures EntriesOf(Classify, DocsOf(ws)) == ListOf(ws)
  {
    if ws == [] {
    } else {
      WrittenEntry(ws[0]);
      WrittenEntries(ws[1..]);
      EntriesFold(Classify, DocOf(ws[0]), DocsOf(ws[1..]));
    }
  }

  lemma {:induction false} EntriesFold(f: Classifier, d: EntryDoc, ds: seq<EntryDoc>)
    requires ValidEntry(f, d) && forall i :: 0 <= i < |ds| ==> ValidEntry(f, ds[i])
    ensures forall i :: 0 <= i < |[d] + ds| ==> ValidEntry(f, ([d] + ds)[i])
    ensures EntriesOf(f, [d] + ds) == [EntryOf(f, d)] + EntriesOf(f, ds)
  {
    assert ([d] + ds)[1..] == ds;
  }

  /**
   For every list of ids and purls, with or without a purls key, written with any indentation, gaps,
   trailing text, comments, blank lines and other keys, and between any other sections, the reader
   returns exactly the list.
   */
  lemma {:induction false} LoadWritten(first: seq<Section>, tail: string, lead: seq<string>, ws: seq<Written>, last: seq<Section>)
    requires forall i :: 0 <= i < |first| ==> first[i].OtherSection? && ValidSection(Classify, first[i])
    requires forall i :: 0 <= i < |last| ==> last[i].OtherSection? && ValidSection(Classify, last[i])
    requires Spaces(tail) && AllNeutral(Classify, lead)
    requires forall i :: 0 <= i < |ws| ==> ValidWritten(ws[i])
    ensures var doc := first + ([Vulnerabilities(SectionKey(tail), lead, DocsOf(ws))] + last);
      Read(Classify, START, Render(doc)).entries == ListOf(ws)
  {
    WrittenEntries(ws);
    SectionKeyKind(tail);
    var s := Vulnerabilities(SectionKey(tail), lead, DocsOf(ws));
    SectionsValid(Classify, first, s, last);
    ReadRender(Classify, first + ([s] + last));
    OnlySection(Classify, first, s, last);
  }

  lemma {:induction false} SectionsValid(f: Classifier, first: seq<Section>, s: Section, last: seq<Section>)
    requires forall i :: 0 <= i < |first| ==> ValidSection(f, first[i])
    requires forall i :: 0 <= i < |last| ==> ValidSection(f, last[i])
    requires ValidSection(f, s)
    ensures var doc := first + ([s] + last); forall i :: 0 <= i < |doc| ==> ValidSection(f, doc[i])
  {
    var doc := first + ([s] + last);
    forall i | 0 <= i < |doc| ensures ValidSection(f, doc[i]) {
      if i < |first| {
        assert doc[i] == first[i];
      } else if i > |first| {
        assert doc[i] == last[i - |first| - 1];
      }
    }
  }

  lemma {:induction false} OnlySection(f: Classifier, first: seq<Section>, s: Section, last: seq<Section>)
    requires forall i :: 0 <= i < |first| ==> first[i].OtherSection?
    requires forall i :: 0 <= i < |last| ==> last[i].OtherSection?
    ensures Meaning(f, first + ([s] + last)) == SectionMeaning(f, s)
  {
    var doc := first + ([s] + last);
    if first == [] {
      assert doc[0] == s && doc[1..] == last;
      NothingElse(f, last);
      assert SectionMeaning(f, s) + [] == SectionMeaning(f, s);
    } else {
      assert doc[0] == first[0] && doc[1..] == first[1..] + ([s] + last);
      OnlySection(f, first[1..], s, last);
      assert [] + SectionMeaning(f, s) == SectionMeaning(f, s);
    }
  }

  lemma {:induction false} NothingElse(f: Classifier, last: seq<Section>)
    requires forall i :: 0 <= i < |last| ==> last[i].OtherSection?
    ensures Meaning(f, last) == []
  {
    if last == [] {
    } else {
      NothingElse(f, last[1..]);
    }
  }
}
