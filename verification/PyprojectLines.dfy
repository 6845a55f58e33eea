/**
 The line tests of the pyproject.toml rewriter, and what they make of the lines it writes itself.
 */
module PyprojectLines {
  import opened PythonText
  import opened PyprojectLayout
  import opened PyprojectLaws
  import opened PyprojectKept

  // ---------------------------------------------------------------- line tests

  function HeaderOf(line: string): Header {
    KindOf(Strip(line))
  }

  function KindOf(text: string): Header {
    if StartsWith(text, "[project]") then Project
    else if StartsWith(text, "[project.urls]") then Urls
    else if StartsWith(text, "[project.scripts]") then Scripts
    else if StartsWith(text, "[tool.mypy]") then Mypy
    else if StartsWith(text, "[tool.coverage.run]") then Coverage
    else if StartsWith(text, "[") then Unmanaged
    else NotHeader
  }

  predicate IsDependencies(line: string) {
    StartsWith(Strip(line), "dependencies")
  }

  predicate IsCoverageKey(line: string) {
    StartsWith(Strip(line), "source ") || StartsWith(Strip(line), "branch ")
  }

  // ---------------------------------------------------------------- inert lines

  /** Seen from k on, the line is neither a header nor a dependencies line. */
  predicate InertFrom(line: string, k: nat) {
    && k < |line| && !IsSpace(line[k]) && line[k] != '['
    && (line[k] == 'd' ==> k + 2 < |line| && line[k + 2] != 'p')
  }

  /** A generated line that no test of the rewriter can take for something else. */
  predicate Inert(line: string) {
    line == "" || InertFrom(line, 0) || ("    " <= line && InertFrom(line, 4))
  }

  lemma {:induction false} LStripIs(line: string, k: nat)
    requires k < |line| && !IsSpace(line[k]) && forall j :: 0 <= j < k ==> IsSpace(line[j])
    ensures LStrip(line) == line[k..]
  {
    if k > 0 {
      LStripIs(line[1..], k - 1);
      assert line[1..][k - 1..] == line[k..];
    }
  }

  lemma {:induction false} StripStart(line: string, k: nat)
    requires k < |line| && !IsSpace(line[k]) && forall j :: 0 <= j < k ==> IsSpace(line[j])
    ensures Strip(line) <= line[k..]
  {
    LStripIs(line, k);
  }

  lemma {:induction false} NotHeaderText(line: string)
    requires Strip(line) == "" || Strip(line)[0] != '['
    ensures HeaderOf(line).NotHeader?
  {
  }

  lemma {:induction false} NotDependenciesText(line: string, text: string)
    requires Strip(line) <= text && text != "" && (text[0] == 'd' ==> |text| > 2 && text[2] != 'p')
    ensures !IsDependencies(line)
  {
    assert |"dependencies"| > 2 && "dependencies"[0] == 'd' && "dependencies"[2] == 'p';
  }

  lemma {:induction false} InertLine(line: string)
    requires Inert(line)
    ensures HeaderOf(line).NotHeader? && !IsDependencies(line)
  {
    if line != "" {
      var k := if InertFrom(line, 0) then 0 else 4;
      StripStart(line, k);
      NotHeaderText(line);
      NotDependenciesText(line, line[k..]);
    }
  }

  ghost predicate AllInert(lines: seq<string>) {
    forall i :: 0 <= i < |lines| ==> Inert(lines[i])
  }

  lemma {:induction false} InertLines(t: Template, lines: seq<string>)
    requires t.header == HeaderOf && AllInert(lines)
    ensures Plain(t, lines) && forall i :: 0 <= i < |lines| ==> !IsDependencies(lines[i])
  {
    forall i | 0 <= i < |lines| ensures !t.IsHeader(lines[i]) && !IsDependencies(lines[i]) {
      InertLine(lines[i]);
    }
  }

  lemma {:induction false} InertJoin(a: seq<string>, b: seq<string>, c: seq<string>)
    requires AllInert(a) && AllInert(b) && AllInert(c)
    ensures AllInert(a + b + c)
  {
  }

  lemma {:induction false} DropFirst(a: seq<string>, b: seq<string>, c: seq<string>)
    requires a != []
    ensures (a + b + c)[1..] == a[1..] + b + c
  {
  }

  /** A block of inert lines below a header is one section, without a dependencies line. */
  lemma {:induction false} InertSection(t: Template, block: seq<string>, kind: Header)
    requires t.header == HeaderOf && t.dependencies == IsDependencies
    requires block != [] && HeaderOf(block[0]) == kind && AllInert(block[1..])
    ensures OneSection(t, block, kind)
    ensures forall i :: 1 <= i < |block| ==> !t.dependencies(block[i])
  {
    InertLines(t, block[1..]);
    forall i | 1 <= i < |block| ensures !t.dependencies(block[i]) {
      assert block[i] == block[1..][i - 1];
    }
  }

  // ---------------------------------------------------------------- headers

  lemma {:induction false} HeaderLine(line: string)
    requires line != "" && line[0] == '[' && line[|line| - 1] == ']'
    ensures Strip(line) == line
  {
  }

  lemma {:induction false} CoverageKeyLine(line: string, prefix: string)
    requires prefix + "=" <= line && (prefix == "source " || prefix == "branch ")
    ensures StartsWith(Strip(line), prefix)
  {
    StripKeepsPrefix(line, prefix + "=");
  }

  lemma {:induction false} ProjectHeader()
    ensures HeaderOf("[project]") == Project
  {
    HeaderLine("[project]");
  }

  lemma {:induction false} UrlsHeader()
    ensures HeaderOf("[project.urls]") == Urls
  {
    HeaderLine("[project.urls]");
    assert "[project]"[8] != "[project.urls]"[8];
  }

  lemma {:induction false} ScriptsHeader()
    ensures HeaderOf("[project.scripts]") == Scripts
  {
    HeaderLine("[project.scripts]");
    assert "[project]"[8] != "[project.scripts]"[8];
    assert "[project.urls]"[9] != "[project.scripts]"[9];
  }

  lemma {:induction false} MypyHeader()
    ensures HeaderOf("[tool.mypy]") == Mypy
  {
    HeaderLine("[tool.mypy]");
    assert "[project]"[1] != "[tool.mypy]"[1];
  }

  lemma {:induction false} CoverageHeader()
    ensures HeaderOf("[tool.coverage.run]") == Coverage
  {
    HeaderLine("[tool.coverage.run]");
    assert "[project]"[1] != "[tool.coverage.run]"[1];
    assert "[project.urls]"[1] != "[tool.coverage.run]"[1];
    assert "[project.scripts]"[1] != "[tool.coverage.run]"[1];
    assert "[tool.mypy]"[6] != "[tool.coverage.run]"[6];
  }

  lemma {:induction false} BranchKey(line: string)
    requires line == "branch = true"
    ensures IsCoverageKey(line)
  {
    CoverageKeyLine(line, "branch ");
  }

  // ---------------------------------------------------------------- what the laws ask

  lemma {:induction false} ScriptsSection(t: Template)
    requires t.header == HeaderOf && |t.scripts| == 3
    requires t.scripts[0] == "[project.scripts]" && t.scripts[2] == ""
    ensures t.header(t.scripts[0]) == Scripts && !t.IsHeader(t.scripts[2])
  {
    ScriptsHeader();
    InertLine(t.scripts[2]);
  }

  predicate InBrackets(block: seq<string>) {
    block != [] && block[0] != "" && block[0][|block[0]| - 1] == ']'
  }

  /** The script line ends in a quotation mark, a header in a bracket. */
  lemma {:induction false} QuotedIsNoHeader(t: Template, line: string)
    requires InBrackets(t.project) && InBrackets(t.urls) && InBrackets(t.scripts)
    requires InBrackets(t.mypy) && InBrackets(t.coverage)
    requires line != "" && line[|line| - 1] == '\"'
    ensures forall h :: BlockOf(t, h) != [] ==> line != BlockOf(t, h)[0]
  {
  }

  lemma {:induction false} KeysOf(t: Template, head: seq<string>)
    requires |head| == 3 && t.coverageKey(head[1]) && t.coverageKey(head[2])
    ensures forall i :: 1 <= i < |head| ==> t.coverageKey(head[i])
  {
  }

  lemma {:induction false} Assembled(t: Template)
    requires OneSection(t, t.project, Project) && OneSection(t, t.urls, Urls)
    requires OneSection(t, t.mypy, Mypy) && OneSection(t, t.coverage, Coverage)
    requires forall i :: 1 <= i < |t.project| ==> !t.dependencies(t.project[i])
    requires forall i :: 1 <= i < |t.coverage| ==> t.coverageKey(t.coverage[i])
    requires |t.scripts| == 3 && t.header(t.scripts[0]) == Scripts && !t.IsHeader(t.scripts[2])
    requires forall h :: BlockOf(t, h) != [] ==> t.scripts[1] != BlockOf(t, h)[0]
    ensures WellFormed(t)
  {
  }

  // ---------------------------------------------------------------- the script line

  lemma {:induction false} KindIsBracket(text: string)
    ensures KindOf(text).NotHeader? <==> text == "" || text[0] != '['
  {
  }

  /** A header is a line whose first character, but for spaces, is a bracket. */
  lemma {:induction false} HeaderIsBracket(line: string)
    ensures HeaderOf(line).NotHeader? <==> !StartsWith(LStrip(line), "[")
  {
    var a := LStrip(line);
    KindIsBracket(RStrip(a));
    if StartsWith(a, "[") {
      RStripKeepsPrefix(a, "[");
    }
  }

  lemma {:induction false} EntryPointText(text: string)
    requires |text| > 1 && text[0] == ' ' && text[1] == '='
    ensures !StartsWith(LStrip(text), "[")
  {
    assert text[1..][0] == '=';
    LStripIs(text, 1);
  }

  lemma {:induction false} NameMeaning(name: string, more: string, line: string)
    requires line == name + more && !StartsWith(LStrip(more), "[")
    ensures HeaderOf(line).NotHeader? <==> !StartsWith(LStrip(name), "[")
  {
    HeaderIsBracket(line);
    LStripFront(name, more);
  }

  lemma {:induction false} BlankLine(line: string)
    requires line == ""
    ensures !IsDependencies(line) && !IsCoverageKey(line)
  {
  }

  lemma {:induction false} StrayOf(t: Template, block: seq<string>)
    requires t.scripts == block && |block| == 3
    requires !t.dependencies(block[2]) && !t.coverageKey(block[2])
    ensures Stray(t) ==
      match t.header(block[1])
      case Unmanaged => [block[1], block[2]]
      case Coverage => [block[2]]
      case _ => []
  {
    assert [block[2]][1..] == [];
    assert FromDependencies(t, [block[2]]) == [];
    assert WithoutCoverageKeys(t, [block[2]]) == [block[2]];
  }

  lemma {:induction false} KeptLaws(t: Template, lines: seq<string>)
    requires WellFormed(t)
    ensures
      && (Headers(t, Rewrite(t, lines)) == CanonicalAll(t, Headers(t, lines)) <==>
            ScriptNameOk(t) || !HasScripts(t, lines))
      && (AllUpToDate(t, Rewrite(t, lines)) <==> ScriptLineUnmanaged(t) || !HasScripts(t, lines))
      && (Kept(t, Rewrite(t, lines), Copying) == Kept(t, lines, Copying) <==>
            Stray(t) == [] || !HasScripts(t, lines))
  {
    HeadersPreserved(t, lines);
    ManagedUpToDate(t, lines);
    KeptPreserved(t, lines);
  }

  // ---------------------------------------------------------------- sections as they are written

  /** The line begins with this text, white space aside. */
  predicate Begins(line: string, text: string) {
    text <= Strip(line)
  }

  ghost predicate NoneBegins(lines: seq<string>, text: string) {
    forall i :: 0 <= i < |lines| ==> !Begins(lines[i], text)
  }

  /** Lines that go on with a section of their own, if there are any. */
  ghost predicate NextSection(lines: seq<string>) {
    lines == [] || Begins(lines[0], "[")
  }

  /** The template asks the real questions of a line. */
  ghost predicate RealTests(t: Template) {
    t.header == HeaderOf && t.dependencies == IsDependencies && t.coverageKey == IsCoverageKey
  }

  lemma {:induction false} BracketOpens(line: string)
    ensures HeaderOf(line).NotHeader? <==> !Begins(line, "[")
  {
    KindIsBracket(Strip(line));
  }

  lemma {:induction false} PlainLines(t: Template, lines: seq<string>)
    requires RealTests(t) && NoneBegins(lines, "[")
    ensures Plain(t, lines)
  {
    forall i | 0 <= i < |lines| ensures !t.IsHeader(lines[i]) {
      BracketOpens(lines[i]);
    }
  }

  lemma {:induction false} PrefixOpens(text: string, key: string)
    requires key != "" && key[0] == '[' && key <= text
    ensures "[" <= text
  {
  }

  /** A section anywhere in a file is rewritten by itself. */
  lemma {:induction false} InPlace(t: Template, before: seq<string>, section: seq<string>, after: seq<string>)
    requires RealTests(t) && section != [] && Begins(section[0], "[")
    requires NoneBegins(section[1..], "[") && NextSection(after)
    ensures Rewrite(t, before + (section + after)) ==
            Rewrite(t, before) + (RewriteSection(t, section) + Rewrite(t, after))
  {
    BracketOpens(section[0]);
    PlainLines(t, section[1..]);
    if after != [] {
      BracketOpens(after[0]);
    }
    RewriteAppend(t, before, section + after);
    RewriteCons(t, section, after);
  }

  /** Which lines open which section. */
  lemma {:induction false} HeaderMeaning(line: string)
    ensures HeaderOf(line) == Project <==> Begins(line, "[project]")
    ensures HeaderOf(line) == Urls <==> Begins(line, "[project.urls]")
    ensures HeaderOf(line) == Scripts <==> Begins(line, "[project.scripts]")
    ensures HeaderOf(line) == Mypy <==> Begins(line, "[tool.mypy]")
    ensures HeaderOf(line) == Coverage <==> Begins(line, "[tool.coverage.run]")
  {
    KindsDisjoint(Strip(line));
  }

  lemma {:induction false} KindsDisjoint(text: string)
    ensures "[project]" <= text ==> KindOf(text) == Project
    ensures "[project.urls]" <= text ==> KindOf(text) == Urls
    ensures "[project.scripts]" <= text ==> KindOf(text) == Scripts
    ensures "[tool.mypy]" <= text ==> KindOf(text) == Mypy
    ensures "[tool.coverage.run]" <= text ==> KindOf(text) == Coverage
  {
    Apart("[project]", "[project.urls]", text, 8);
    Apart("[project]", "[project.scripts]", text, 8);
    Apart("[project.urls]", "[project.scripts]", text, 9);
    Apart("[project]", "[tool.mypy]", text, 1);
    Apart("[project.urls]", "[tool.mypy]", text, 1);
    Apart("[project.scripts]", "[tool.mypy]", text, 1);
    Apart("[project]", "[tool.coverage.run]", text, 1);
    Apart("[project.urls]", "[tool.coverage.run]", text, 1);
    Apart("[project.scripts]", "[tool.coverage.run]", text, 1);
    Apart("[tool.mypy]", "[tool.coverage.run]", text, 6);
  }

  lemma {:induction false} Apart(a: string, b: string, text: string, i: nat)
    requires i < |a| && i < |b| && a[i] != b[i]
    ensures !(a <= text && b <= text)
  {
  }

  /** What becomes of a [project] section: nothing of it is left before its dependencies line. */
  lemma {:induction false} ProjectSection(t: Template, header: string, skipped: seq<string>, kept: seq<string>)
    requires RealTests(t) && Begins(header, "[project]")
    requires NoneBegins(skipped, "dependencies") && (kept == [] || Begins(kept[0], "dependencies"))
    ensures RewriteSection(t, [header] + (skipped + kept)) == t.project + kept
  {
    var section := [header] + (skipped + kept);
    HeaderMeaning(header);
    assert section[0] == header && section[1..] == skipped + kept;
    FromDependenciesIs(t, skipped + kept, |skipped|);
    assert (skipped + kept)[|skipped|..] == kept;
  }

  /** The lines that neither begin with "source " nor with "branch ". */
  function HandWritten(body: seq<string>): seq<string> {
    if body == [] then []
    else
      (if Begins(body[0], "source ") || Begins(body[0], "branch ") then [] else [body[0]]) + HandWritten(body[1..])
  }

  lemma {:induction false} CoverageSection(t: Template, header: string, body: seq<string>)
    requires RealTests(t) && Begins(header, "[tool.coverage.run]")
    ensures RewriteSection(t, [header] + body) == t.coverage + HandWritten(body)
  {
    HeaderMeaning(header);
    assert ([header] + body)[1..] == body;
    HandWrittenKept(t, body);
  }

  lemma {:induction false} HandWrittenKept(t: Template, body: seq<string>)
    requires RealTests(t)
    ensures WithoutCoverageKeys(t, body) == HandWritten(body)
  {
    if body == [] {
    } else {
      HandWrittenKept(t, body[1..]);
    }
  }

  predicate BeginsNoManaged(line: string) {
    && !Begins(line, "[project]") && !Begins(line, "[project.urls]") && !Begins(line, "[project.scripts]")
    && !Begins(line, "[tool.mypy]") && !Begins(line, "[tool.coverage.run]")
  }

  /** The other sections: three are replaced whole, the rest are left as they are. */
  lemma {:induction false} OtherSections(t: Template, header: string, body: seq<string>)
    requires RealTests(t)
    ensures Begins(header, "[project.urls]") ==> RewriteSection(t, [header] + body) == t.urls
    ensures Begins(header, "[project.scripts]") ==> RewriteSection(t, [header] + body) == t.scripts
    ensures Begins(header, "[tool.mypy]") ==> RewriteSection(t, [header] + body) == t.mypy
    ensures BeginsNoManaged(header) ==> RewriteSection(t, [header] + body) == [header] + body
  {
    HeaderMeaning(header);
  }
}
