/**
 The layout of the rewriter, apart from the wording of its templates: which lines open a section,
 which sections are managed, and what becomes of each.  A `Template` holds the line tests and the
 managed text; everything here is for all templates.
 */
module PyprojectLayout {

  datatype Header = NotHeader | Unmanaged | Project | Urls | Scripts | Mypy | Coverage

  datatype Template = Template(
    header: string -> Header,
    dependencies: string -> bool,
    coverageKey: string -> bool,
    project: seq<string>,
    urls: seq<string>,
    scripts: seq<string>,
    mypy: seq<string>,
    coverage: seq<string>)
  {
    predicate IsHeader(line: string) {
      !header(line).NotHeader?
    }
  }

  /** The number of lines before the first header. */
  function BodyLength(t: Template, lines: seq<string>): (n: nat)
    ensures n <= |lines|
    ensures forall i :: 0 <= i < n ==> !t.IsHeader(lines[i])
    ensures n < |lines| ==> t.IsHeader(lines[n])
  {
    if lines == [] || t.IsHeader(lines[0]) then 0 else 1 + BodyLength(t, lines[1..])
  }

  /** What is left of a [project] body: everything from its first dependencies line on. */
  function FromDependencies(t: Template, body: seq<string>): seq<string> {
    if body == [] || t.dependencies(body[0]) then body else FromDependencies(t, body[1..])
  }

  function WithoutCoverageKeys(t: Template, body: seq<string>): seq<string> {
    if body == [] then []
    else (if t.coverageKey(body[0]) then [] else [body[0]]) + WithoutCoverageKeys(t, body[1..])
  }

  function RewriteSection(t: Template, section: seq<string>): (r: seq<string>)
    requires section != []
  {
    match t.header(section[0])
    case Project => t.project + FromDependencies(t, section[1..])
    case Urls => t.urls
    case Scripts => t.scripts
    case Mypy => t.mypy
    case Coverage => t.coverage + WithoutCoverageKeys(t, section[1..])
    case _ => section
  }

  /** The length of the first section: its header, or first line, and the body below. */
  function SectionLength(t: Template, lines: seq<string>): (n: nat)
    requires lines != []
    ensures 1 <= n <= |lines|
  {
    1 + BodyLength(t, lines[1..])
  }

  /** The rewriter, section by section. */
  function Rewrite(t: Template, lines: seq<string>): seq<string> {
    if lines == [] then []
    else
      var n := SectionLength(t, lines);
      RewriteSection(t, lines[..n]) + Rewrite(t, lines[n..])
  }

  ghost predicate Plain(t: Template, lines: seq<string>) {
    forall i :: 0 <= i < |lines| ==> !t.IsHeader(lines[i])
  }

  /** A piece of the file that starts a section of its own, or nothing. */
  ghost predicate AtHeader(t: Template, lines: seq<string>) {
    lines == [] || t.IsHeader(lines[0])
  }

  lemma {:induction false} BodyLengthIs(t: Template, body: seq<string>, rest: seq<string>)
    requires Plain(t, body) && AtHeader(t, rest)
    ensures BodyLength(t, body + rest) == |body|
  {
    if body == [] {
      assert body + rest == rest;
    } else {
      assert (body + rest)[1..] == body[1..] + rest;
      BodyLengthIs(t, body[1..], rest);
    }
  }

  /** One section in front of a file that continues with a header. */
  lemma {:induction false} RewriteCons(t: Template, section: seq<string>, rest: seq<string>)
    requires section != [] && Plain(t, section[1..]) && AtHeader(t, rest)
    ensures Rewrite(t, section + rest) == RewriteSection(t, section) + Rewrite(t, rest)
  {
    var lines := section + rest;
    assert lines[1..] == section[1..] + rest;
    BodyLengthIs(t, section[1..], rest);
    assert lines[..|section|] == section && lines[|section|..] == rest;
  }

  /** Rewriting works on the parts of a file cut at a header. */
  lemma {:induction false} RewriteAppend(t: Template, a: seq<string>, b: seq<string>)
    requires AtHeader(t, b)
    ensures Rewrite(t, a + b) == Rewrite(t, a) + Rewrite(t, b)
    decreases |a|
  {
    if a == [] {
      assert a + b == b;
    } else {
      var n := SectionLength(t, a);
      var section, more := a[..n], a[n..];
      assert section[1..] == a[1..][..n - 1];
      assert a + b == section + (more + b);
      RewriteCons(t, section, more + b);
      RewriteAppend(t, more, b);
      Regroup(RewriteSection(t, section), Rewrite(t, more), Rewrite(t, b));
    }
  }

  lemma {:induction false} Regroup(a: seq<string>, b: seq<string>, c: seq<string>)
    ensures a + (b + c) == (a + b) + c
  {
  }

  /** Lines that open no managed section are copied one by one. */
  lemma {:induction false} RewriteCopies(t: Template, lines: seq<string>)
    requires lines != [] && (t.header(lines[0]).NotHeader? || t.header(lines[0]).Unmanaged?)
    ensures Rewrite(t, lines) == [lines[0]] + Rewrite(t, lines[1..])
  {
    var n := BodyLength(t, lines[1..]);
    var body, rest := lines[1..][..n], lines[1..][n..];
    assert lines[1..] == body + rest;
    assert lines == [lines[0]] + (body + rest);
    CopiesFirst(t, lines[0], body, rest);
  }

  lemma {:induction false} CopiesFirst(t: Template, line: string, body: seq<string>, rest: seq<string>)
    requires t.header(line).NotHeader? || t.header(line).Unmanaged?
    requires Plain(t, body) && AtHeader(t, rest)
    ensures Rewrite(t, [line] + (body + rest)) == [line] + Rewrite(t, body + rest)
  {
    assert ([line] + body)[1..] == body;
    VerbatimSection(t, [line] + body, rest);
    Regroup([line], body, rest);
    if body == [] {
      assert body + rest == rest && [line] + body == [line];
    } else {
      VerbatimSection(t, body, rest);
      Regroup([line], body, Rewrite(t, rest));
    }
  }

  lemma {:induction false} VerbatimSection(t: Template, section: seq<string>, rest: seq<string>)
    requires section != [] && (t.header(section[0]).NotHeader? || t.header(section[0]).Unmanaged?)
    requires Plain(t, section[1..]) && AtHeader(t, rest)
    ensures Rewrite(t, section + rest) == section + Rewrite(t, rest)
  {
    RewriteCons(t, section, rest);
  }

  lemma {:induction false} RewriteCopiesAll(t: Template, body: seq<string>, rest: seq<string>)
    requires Plain(t, body)
    ensures Rewrite(t, body + rest) == body + Rewrite(t, rest)
  {
    if body == [] {
      assert body + rest == rest;
    } else {
      RewriteCopies(t, body + rest);
      assert (body + rest)[1..] == body[1..] + rest;
      RewriteCopiesAll(t, body[1..], rest);
      Regroup([body[0]], body[1..], Rewrite(t, rest));
      assert [body[0]] + body[1..] == body;
    }
  }

  // ---------------------------------------------------------------- the loop of the script

  /** Past the next line that stops the skipping: a header, or a dependencies line if asked for. */
  predicate Stops(t: Template, line: string, atDependencies: bool) {
    t.IsHeader(line) || (atDependencies && t.dependencies(line))
  }

  method UpdateLines(t: Template, lines: seq<string>) returns (newLines: seq<string>)
    ensures newLines == Rewrite(t, lines)
  {
    newLines := [];
    var i := 0;
    while i < |lines|
      invariant 0 <= i <= |lines|
      invariant newLines + Rewrite(t, lines[i..]) == Rewrite(t, lines)
    {
      match t.header(lines[i])
      case Project => newLines, i := WriteProject(t, lines, i, newLines);
      case Urls => newLines, i := Replace(t, lines, i, newLines, t.urls);
      case Scripts => newLines, i := Replace(t, lines, i, newLines, t.scripts);
      case Mypy => newLines, i := Replace(t, lines, i, newLines, t.mypy);
      case Coverage => newLines, i := WriteCoverage(t, lines, i, newLines);
      case _ => newLines, i := Copy(t, lines, i, newLines);
    }
    assert lines[i..] == [];
  }

  /** Keep a line as it is. */
  method Copy(t: Template, lines: seq<string>, start: nat, written: seq<string>)
    returns (newLines: seq<string>, i: nat)
    requires start < |lines| && (t.header(lines[start]).NotHeader? || t.header(lines[start]).Unmanaged?)
    ensures i == start + 1 && newLines == written + [lines[start]]
    ensures newLines + Rewrite(t, lines[i..]) == written + Rewrite(t, lines[start..])
  {
    newLines := written + [lines[start]];
    i := start + 1;
    RewriteCopies(t, lines[start..]);
    assert lines[start..][1..] == lines[i..];
    Regroup(written, [lines[start]], Rewrite(t, lines[i..]));
  }

  /** Write the metadata, then skip to the dependencies line or the next header. */
  method WriteProject(t: Template, lines: seq<string>, start: nat, written: seq<string>)
    returns (newLines: seq<string>, i: nat)
    requires start < |lines| && t.header(lines[start]) == Project
    ensures start < i <= |lines| && newLines == written + t.project
    ensures newLines + Rewrite(t, lines[i..]) == written + Rewrite(t, lines[start..])
  {
    newLines := written + t.project;
    i := start + 1;
    while i < |lines| && !Stops(t, lines[i], true)
      invariant start < i <= |lines|
      invariant forall j :: start < j < i ==> !Stops(t, lines[j], true)
    {
      i := i + 1;
    }
    SkippedProject(t, lines[start..], i - start);
    assert lines[start..][i - start..] == lines[i..];
    Regroup(written, t.project, Rewrite(t, lines[i..]));
  }

  /** The three sections that are replaced whole: write the block, skip the old body. */
  method Replace(t: Template, lines: seq<string>, start: nat, written: seq<string>, block: seq<string>)
    returns (newLines: seq<string>, i: nat)
    requires start < |lines| && RewriteSection(t, [lines[start]]) == block
    requires t.header(lines[start]).Urls? || t.header(lines[start]).Scripts? || t.header(lines[start]).Mypy?
    ensures start < i <= |lines| && newLines == written + block
    ensures newLines + Rewrite(t, lines[i..]) == written + Rewrite(t, lines[start..])
  {
    newLines := written + block;
    i := start + 1;
    while i < |lines| && !Stops(t, lines[i], false)
      invariant start < i <= |lines|
      invariant forall j :: start < j < i ==> !t.IsHeader(lines[j])
    {
      i := i + 1;
    }
    SkippedSection(t, lines, start, i);
    Regroup(written, block, Rewrite(t, lines[i..]));
  }

  /** Gather the hand-written keys, then write the managed ones in front of them. */
  method WriteCoverage(t: Template, lines: seq<string>, start: nat, written: seq<string>)
    returns (newLines: seq<string>, i: nat)
    requires start < |lines| && t.header(lines[start]) == Coverage
    ensures start < i <= |lines|
    ensures newLines == written + (t.coverage + WithoutCoverageKeys(t, lines[start + 1..i]))
    ensures newLines + Rewrite(t, lines[i..]) == written + Rewrite(t, lines[start..])
  {
    i := start + 1;
    var preserved := [];
    while i < |lines| && !Stops(t, lines[i], false)
      invariant start < i <= |lines|
      invariant forall j :: start < j < i ==> !t.IsHeader(lines[j])
      invariant preserved == WithoutCoverageKeys(t, lines[start + 1..i])
    {
      KeysAppend(t, lines[start + 1..i], lines[i]);
      assert lines[start + 1..i] + [lines[i]] == lines[start + 1..i + 1];
      if !t.coverageKey(lines[i]) {
        preserved := preserved + [lines[i]];
      }
      i := i + 1;
    }
    newLines := written + (t.coverage + preserved);
    SkippedSection(t, lines, start, i);
    assert lines[start..i][1..] == lines[start + 1..i];
    Regroup(written, t.coverage + preserved, Rewrite(t, lines[i..]));
  }

  lemma {:induction false} KeysAppend(t: Template, body: seq<string>, line: string)
    ensures WithoutCoverageKeys(t, body + [line]) ==
            WithoutCoverageKeys(t, body) + if t.coverageKey(line) then [] else [line]
  {
    if body == [] {
      assert body + [line] == [line];
    } else {
      assert (body + [line])[1..] == body[1..] + [line];
      KeysAppend(t, body[1..], line);
    }
  }

  /** The loop skipped exactly one section. */
  lemma {:induction false} SkippedSection(t: Template, lines: seq<string>, start: nat, i: nat)
    requires start < i <= |lines| && AtHeader(t, lines[i..])
    requires forall j :: start < j < i ==> !t.IsHeader(lines[j])
    ensures Rewrite(t, lines[start..]) == RewriteSection(t, lines[start..i]) + Rewrite(t, lines[i..])
  {
    assert lines[start..] == lines[start..i] + lines[i..];
    assert lines[start..i][1..] == lines[start + 1..i];
    RewriteCons(t, lines[start..i], lines[i..]);
  }

  lemma {:induction false} FromDependenciesIs(t: Template, body: seq<string>, k: nat)
    requires k <= |body| && forall j :: 0 <= j < k ==> !t.dependencies(body[j])
    requires k < |body| ==> t.dependencies(body[k])
    ensures FromDependencies(t, body) == body[k..]
  {
    if k > 0 {
      FromDependenciesIs(t, body[1..], k - 1);
    }
  }

  /** The loop over [project] stopped at its dependencies line, at a header, or at the end. */
  lemma {:induction false} SkippedProject(t: Template, lines: seq<string>, k: nat)
    requires 1 <= k <= |lines| && t.header(lines[0]).Project?
    requires forall j :: 1 <= j < k ==> !Stops(t, lines[j], true)
    requires k < |lines| ==> Stops(t, lines[k], true)
    ensures Rewrite(t, lines) == t.project + Rewrite(t, lines[k..])
  {
    var n := SectionLength(t, lines);
    assert k <= n;
    var skipped, kept, rest := lines[1..k], lines[k..n], lines[n..];
    assert lines == [lines[0]] + (skipped + kept) + rest;
    assert lines[k..] == kept + rest;
    forall j | 0 <= j < |skipped| ensures !t.IsHeader(skipped[j]) && !t.dependencies(skipped[j]) {
      assert !Stops(t, lines[j + 1], true);
    }
    forall j | 0 <= j < |kept| ensures !t.IsHeader(kept[j]) {
      assert kept[j] == lines[1..][k - 1 + j];
    }
    ProjectParts(t, lines[0], skipped, kept, rest);
  }

  lemma {:induction false} ProjectParts(
    t: Template, head: string, skipped: seq<string>, kept: seq<string>, rest: seq<string>)
    requires t.header(head).Project? && Plain(t, skipped) && Plain(t, kept) && AtHeader(t, rest)
    requires forall j :: 0 <= j < |skipped| ==> !t.dependencies(skipped[j])
    requires kept != [] ==> t.dependencies(kept[0])
    ensures Rewrite(t, [head] + (skipped + kept) + rest) == t.project + Rewrite(t, kept + rest)
  {
    var section := [head] + (skipped + kept);
    assert section[1..] == skipped + kept;
    RewriteCons(t, section, rest);
    FromDependenciesIs(t, skipped + kept, |skipped|);
    assert (skipped + kept)[|skipped|..] == kept;
    RewriteCopiesAll(t, kept, rest);
    Regroup(t.project, kept, Rewrite(t, rest));
  }
}
