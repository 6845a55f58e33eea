/**
 The selective rewriter of pyproject.toml with its real templates.
 */
module Pyproject {
  import opened PythonText
  import opened PyprojectLayout
  import opened PyprojectLines
  import opened PyprojectLaws
  import opened PyprojectKept
  import opened PyprojectFile

  datatype Config = Config(
    pypiName: string, version: string, description: string, author: string, email: string,
    pythonVersions: seq<string>, minPython: string, defaultPython: string,
    repoUrl: string, docsUrl: string, issuesUrl: string,
    shortName: string, packageRoot: string)

  // ---------------------------------------------------------------- templates

  function Quoted(key: string, value: string): string {
    key + (" = \"" + value + "\"")
  }

  /** An entry of a list, on a line of its own. */
  function Item(text: string): string {
    "    \"" + (text + "\",")
  }

  function Items(texts: seq<string>): seq<string> {
    if texts == [] then [] else [Item(texts[0])] + Items(texts[1..])
  }

  function PersonItem(c: Config): string {
    "    {" + ("name = \"" + c.author + "\", email = \"" + c.email + "\"},")
  }

  function ProjectNames(c: Config): seq<string> {
    [ "[project]",
      Quoted("name", c.pypiName),
      Quoted("version", c.version),
      Quoted("description", c.description),
      "readme = \"README.md\"",
      "license = \"Apache-2.0\"",
      "authors = [",
      PersonItem(c),
      "]",
      "maintainers = [",
      PersonItem(c),
      "]",
      "keywords = [" ]
  }

  const KEYWORDS: seq<string> :=
    ["aws", "ec2", "hostfactory", "symphony", "hpc", "cluster", "cloud", "infrastructure"]

  const CLASSIFIERS: seq<string> :=
    [ "Development Status :: 4 - Beta",
      "Intended Audience :: Developers",
      "Natural Language :: English",
      "Operating System :: OS Independent",
      "Programming Language :: Python :: 3" ]

  const CLASSIFIERS_OPEN: seq<string> := ["]", "classifiers = ["]

  const TOPICS: seq<string> :=
    [ "Topic :: Software Development :: Libraries :: Python Modules",
      "Topic :: System :: Clustering",
      "Topic :: System :: Distributed Computing" ]

  function VersionClassifiers(versions: seq<string>): seq<string> {
    if versions == [] then []
    else
      (if Strip(versions[0]) == "" then []
       else ["Programming Language :: Python :: " + Strip(versions[0])])
      + VersionClassifiers(versions[1..])
  }

  function ProjectLists(c: Config): seq<string> {
    Items(KEYWORDS) + CLASSIFIERS_OPEN +
    Items(CLASSIFIERS) + Items(VersionClassifiers(c.pythonVersions)) + Items(TOPICS)
  }

  function ProjectTail(c: Config): seq<string> {
    [ "]", "requires-python = \">=" + c.minPython + "\"", "" ]
  }

  function ProjectBlock(c: Config): seq<string> {
    ProjectNames(c) + ProjectLists(c) + ProjectTail(c)
  }

  function UrlsBlock(c: Config): seq<string> {
    [ "[project.urls]",
      Quoted("Homepage", c.repoUrl),
      Quoted("Documentation", c.docsUrl),
      Quoted("Repository", c.repoUrl),
      Quoted("\"Bug Reports\"", c.issuesUrl),
      "" ]
  }

  const ENTRY_POINT := " = \"orb.run:cli_main\""

  function ScriptLine(c: Config): string {
    c.shortName + ENTRY_POINT
  }

  function ScriptsBlock(c: Config): seq<string> {
    [ "[project.scripts]", ScriptLine(c), "" ]
  }

  function MypyHead(c: Config): seq<string> {
    [ "[tool.mypy]", Quoted("python_version", c.defaultPython) ]
  }

  const MYPY_CHECKS: seq<string> :=
    [ "warn_return_any = true",
      "warn_unused_configs = true",
      "disallow_untyped_defs = false",
      "disallow_incomplete_defs = false",
      "check_untyped_defs = true",
      "disallow_untyped_decorators = false",
      "no_implicit_optional = true" ]

  const MYPY_WARNINGS: seq<string> :=
    [ "warn_redundant_casts = true",
      "warn_unused_ignores = true",
      "warn_no_return = true",
      "warn_unreachable = true",
      "strict_equality = true",
      "mypy_path = \"src\"",
      "namespace_packages = true",
      "" ]

  function MypyBlock(c: Config): seq<string> {
    MypyHead(c) + MYPY_CHECKS + MYPY_WARNINGS
  }

  function CoverageHead(c: Config): seq<string> {
    [ "[tool.coverage.run]", "source = [\"" + c.packageRoot + "\"]", "branch = true" ]
  }

  function TemplateOf(c: Config): Template {
    Template(HeaderOf, IsDependencies, IsCoverageKey,
             ProjectBlock(c), UrlsBlock(c), ScriptsBlock(c), MypyBlock(c), CoverageHead(c))
  }

  // ---------------------------------------------------------------- the templates are well formed

  lemma {:induction false} QuotedInert(key: string, value: string)
    requires InertFrom(key, 0)
    ensures Inert(Quoted(key, value))
  {
  }

  lemma {:induction false} ItemsInert(texts: seq<string>)
    ensures AllInert(Items(texts))
  {
    if texts == [] {
    } else {
      ItemsInert(texts[1..]);
      assert Inert(Item(texts[0]));
    }
  }

  lemma {:induction false} NamesInert(c: Config)
    ensures AllInert(ProjectNames(c)[1..])
  {
    QuotedInert("name", c.pypiName);
    QuotedInert("version", c.version);
    QuotedInert("description", c.description);
    assert Inert(PersonItem(c));
    assert Inert("readme = \"README.md\"") && Inert("license = \"Apache-2.0\"");
    assert Inert("authors = [") && Inert("]") && Inert("maintainers = [") && Inert("keywords = [");
  }

  lemma {:induction false} ListsInert(c: Config)
    ensures AllInert(ProjectLists(c))
  {
    ItemsInert(KEYWORDS);
    ItemsInert(CLASSIFIERS);
    ItemsInert(TOPICS);
    ItemsInert(VersionClassifiers(c.pythonVersions));
    ClassifiersInert();
    InertJoin(Items(KEYWORDS), CLASSIFIERS_OPEN, Items(CLASSIFIERS));
    InertJoin(Items(KEYWORDS) + CLASSIFIERS_OPEN + Items(CLASSIFIERS),
              Items(VersionClassifiers(c.pythonVersions)), Items(TOPICS));
  }

  lemma {:induction false} ClassifiersInert()
    ensures AllInert(CLASSIFIERS_OPEN)
  {
  }

  lemma {:induction false} ProjectInert(c: Config)
    ensures AllInert(ProjectBlock(c)[1..])
  {
    NamesInert(c);
    ListsInert(c);
    TailInert(c);
    InertJoin(ProjectNames(c)[1..], ProjectLists(c), ProjectTail(c));
    DropFirst(ProjectNames(c), ProjectLists(c), ProjectTail(c));
  }

  lemma {:induction false} TailInert(c: Config)
    ensures AllInert(ProjectTail(c))
  {
  }

  lemma {:induction false} UrlsInert(c: Config)
    ensures AllInert(UrlsBlock(c)[1..])
  {
    QuotedInert("Homepage", c.repoUrl);
    QuotedInert("Documentation", c.docsUrl);
    QuotedInert("Repository", c.repoUrl);
    QuotedInert("\"Bug Reports\"", c.issuesUrl);
  }

  lemma {:induction false} MypyInert(c: Config)
    ensures AllInert(MypyBlock(c)[1..])
  {
    QuotedInert("python_version", c.defaultPython);
    assert AllInert(MypyHead(c)[1..]);
    MypyChecksInert();
    MypyWarningsInert();
    InertJoin(MypyHead(c)[1..], MYPY_CHECKS, MYPY_WARNINGS);
    DropFirst(MypyHead(c), MYPY_CHECKS, MYPY_WARNINGS);
  }

  lemma {:induction false} MypyChecksInert()
    ensures AllInert(MYPY_CHECKS)
  {
    assert Inert(MYPY_CHECKS[0]) && Inert(MYPY_CHECKS[1]) && Inert(MYPY_CHECKS[2]) && Inert(MYPY_CHECKS[3]);
    assert Inert(MYPY_CHECKS[4]) && Inert(MYPY_CHECKS[5]) && Inert(MYPY_CHECKS[6]);
  }

  lemma {:induction false} MypyWarningsInert()
    ensures AllInert(MYPY_WARNINGS)
  {
  }

  lemma {:induction false} CoverageInert(c: Config)
    ensures AllInert(CoverageHead(c)[1..])
  {
  }

  lemma {:induction false} ProjectOk(c: Config)
    ensures var t := TemplateOf(c);
      && OneSection(t, t.project, Project)
      && forall i :: 1 <= i < |t.project| ==> !t.dependencies(t.project[i])
  {
    ProjectHeader();
    ProjectInert(c);
    ProjectFirst(c);
    InertSection(TemplateOf(c), ProjectBlock(c), Project);
  }

  lemma {:induction false} ProjectFirst(c: Config)
    ensures InBrackets(ProjectBlock(c)) && ProjectBlock(c)[0] == "[project]"
  {
  }

  lemma {:induction false} UrlsOk(c: Config)
    ensures var t := TemplateOf(c); OneSection(t, t.urls, Urls)
  {
    UrlsHeader();
    UrlsInert(c);
    InertSection(TemplateOf(c), UrlsBlock(c), Urls);
  }

  lemma {:induction false} MypyOk(c: Config)
    ensures var t := TemplateOf(c); OneSection(t, t.mypy, Mypy)
  {
    MypyHeader();
    MypyInert(c);
    InertSection(TemplateOf(c), MypyBlock(c), Mypy);
  }

  lemma {:induction false} CoverageOk(c: Config)
    ensures var t := TemplateOf(c); OneSection(t, t.coverage, Coverage)
  {
    CoverageHeader();
    CoverageInert(c);
    InertSection(TemplateOf(c), CoverageHead(c), Coverage);
  }

  lemma {:induction false} SourceKey(c: Config)
    ensures IsCoverageKey(CoverageHead(c)[1])
  {
    CoverageKeyLine(CoverageHead(c)[1], "source ");
  }

  lemma {:induction false} CoverageKeys(c: Config)
    ensures var t := TemplateOf(c); forall i :: 1 <= i < |t.coverage| ==> t.coverageKey(t.coverage[i])
  {
    var head := CoverageHead(c);
    SourceKey(c);
    BranchKey(head[2]);
    KeysOf(TemplateOf(c), head);
  }

  lemma {:induction false} ScriptsOk(c: Config)
    ensures var t := TemplateOf(c);
      |t.scripts| == 3 && t.header(t.scripts[0]) == Scripts && !t.IsHeader(t.scripts[2])
  {
    ScriptsSection(TemplateOf(c));
  }

  lemma {:induction false} ScriptLineIsNoHeader(c: Config)
    ensures var t := TemplateOf(c); forall h :: BlockOf(t, h) != [] ==> ScriptLine(c) != BlockOf(t, h)[0]
  {
    ProjectFirst(c);
    MypyFirst(c);
    QuotedEnd(c);
    QuotedIsNoHeader(TemplateOf(c), ScriptLine(c));
  }

  lemma {:induction false} MypyFirst(c: Config)
    ensures InBrackets(MypyBlock(c))
  {
    assert MypyBlock(c)[0] == "[tool.mypy]";
  }

  lemma {:induction false} QuotedEnd(c: Config)
    ensures ScriptLine(c) != "" && ScriptLine(c)[|ScriptLine(c)| - 1] == '\"'
  {
    assert ENTRY_POINT[|ENTRY_POINT| - 1] == '\"';
  }

  /** The real templates are well formed, whatever the configured values. */
  lemma {:induction false} TemplateWellFormed(c: Config)
    ensures WellFormed(TemplateOf(c))
  {
    ProjectOk(c);
    UrlsOk(c);
    MypyOk(c);
    CoverageOk(c);
    CoverageKeys(c);
    ScriptsOk(c);
    ScriptLineIsNoHeader(c);
    Assembled(TemplateOf(c));
  }

  // ---------------------------------------------------------------- whole files

  /** update_pyproject_selective on the text of the file. */
  method UpdatePyproject(c: Config, content: string) returns (out: string)
    ensures Rewrite(TemplateOf(c), SplitLines(content)) != []
    ensures out == UpdatedText(TemplateOf(c), content)
  {
    TemplateWellFormed(c);
    var t := TemplateOf(c);
    RewriteNonEmpty(t, SplitLines(content));
    var newLines := UpdateLines(t, SplitLines(content));
    out := JoinLines(newLines);
  }

  /** The file-level law for the real templates. */
  lemma {:induction false} UpdateTwice(c: Config, content: string)
    requires SingleLineValues(TemplateOf(c))
    ensures var t := TemplateOf(c);
      && Rewrite(t, SplitLines(content)) != []
      && var once := UpdatedText(t, content);
         && Rewrite(t, SplitLines(once)) != []
         && (UpdatedText(t, once) == once <==>
               HeaderOf(ScriptLine(c)).NotHeader? || !HasScripts(t, SplitLines(content)))
  {
    TemplateWellFormed(c);
    TextTwice(TemplateOf(c), content);
  }

  /** A script name is fine, whatever it is, unless it starts with a bracket after any spaces. */
  lemma {:induction false} ScriptNameMeaning(c: Config)
    ensures HeaderOf(ScriptLine(c)).NotHeader? <==> !StartsWith(LStrip(c.shortName), "[")
  {
    EntryPointText(ENTRY_POINT);
    NameMeaning(c.shortName, ENTRY_POINT, ScriptLine(c));
  }

  /**
   The lines of the real script block that end up outside the managed text: none, unless the script
   line is taken for a coverage header or for one the rewriter does not manage.
   */
  lemma {:induction false} StrayMeaning(c: Config)
    ensures Stray(TemplateOf(c)) ==
      match HeaderOf(ScriptLine(c))
      case Unmanaged => [ScriptLine(c), ""]
      case Coverage => [""]
      case _ => []
  {
    BlankLine(ScriptsBlock(c)[2]);
    StrayOf(TemplateOf(c), ScriptsBlock(c));
  }

  /** The three promises about the rest of the file, for the real templates, each with its condition. */
  lemma {:induction false} UpdateKeeps(c: Config, lines: seq<string>)
    ensures var t, h := TemplateOf(c), HeaderOf(ScriptLine(c));
      && t.project != [] && t.urls != [] && |t.scripts| == 3 && t.mypy != [] && t.coverage != []
      && (Headers(t, Rewrite(t, lines)) == CanonicalAll(t, Headers(t, lines)) <==>
            h.NotHeader? || !HasScripts(t, lines))
      && (AllUpToDate(t, Rewrite(t, lines)) <==>
            h.NotHeader? || h.Unmanaged? || !HasScripts(t, lines))
      && (Kept(t, Rewrite(t, lines), Copying) == Kept(t, lines, Copying) <==>
            !(h.Unmanaged? || h.Coverage?) || !HasScripts(t, lines))
  {
    TemplateWellFormed(c);
    StrayMeaning(c);
    KeptLaws(TemplateOf(c), lines);
  }

}
