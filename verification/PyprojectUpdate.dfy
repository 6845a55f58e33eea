/**
 What an update does to a pyproject.toml file, section by section and key by key, told on the text of
 its lines: the dependency list and the hand-written coverage keys survive wherever they stand, and
 each managed key ends up with its configured value.
 */
module PyprojectUpdate {
  import opened Basics
  import opened PythonText
  import opened PyprojectLayout
  import opened PyprojectLines
  import opened PyprojectFile
  import opened Pyproject

  // ---------------------------------------------------------------- keys and values

  /** The line sets this key to a quoted value. */
  predicate Sets(line: string, key: string) {
    key + " = \"" <= line && |line| > |key| + 4 && line[|line| - 1] == '\"'
  }

  ghost predicate NoneSets(lines: seq<string>, key: string) {
    forall i :: 0 <= i < |lines| ==> !Sets(lines[i], key)
  }

  /** The value of a key, by the first line that sets it. */
  function Setting(lines: seq<string>, key: string): Option<string> {
    if lines == [] then None
    else if Sets(lines[0], key) then Some(lines[0][|key| + 4..|lines[0]| - 1])
    else Setting(lines[1..], key)
  }

  lemma {:induction false} QuotedSets(key: string, value: string)
    ensures Sets(Quoted(key, value), key)
    ensures Quoted(key, value)[|key| + 4..|Quoted(key, value)| - 1] == value
  {
    var line := Quoted(key, value);
    assert line == (key + " = \"") + (value + "\"");
    assert line[|key| + 4..] == value + "\"";
  }

  lemma {:induction false} SettingHere(key: string, value: string, more: seq<string>)
    ensures Setting([Quoted(key, value)] + more, key) == Some(value)
  {
    QuotedSets(key, value);
  }

  lemma {:induction false} SettingLater(skipped: seq<string>, more: seq<string>, key: string)
    requires NoneSets(skipped, key)
    ensures Setting(skipped + more, key) == Setting(more, key)
  {
    if skipped == [] {
      assert skipped + more == more;
    } else {
      assert (skipped + more)[1..] == skipped[1..] + more;
      SettingLater(skipped[1..], more, key);
    }
  }

  /** What a block sets, the block with more lines below it sets. */
  lemma {:induction false} SettingStays(block: seq<string>, more: seq<string>, key: string)
    requires Setting(block, key).Some?
    ensures Setting(block + more, key) == Setting(block, key)
  {
    if !Sets(block[0], key) {
      assert (block + more)[1..] == block[1..] + more;
      SettingStays(block[1..], more, key);
    } else {
      assert (block + more)[0] == block[0];
    }
  }

  /** A line that differs from the key in one place does not set it. */
  lemma {:induction false} Unlike(line: string, key: string, i: nat)
    requires i < |key| && i < |line| && line[i] != key[i]
    ensures !Sets(line, key)
  {
    assert (key + " = \"")[i] == key[i];
  }

  lemma {:induction false} HeaderSetsNothing(header: string, key: string)
    requires header != "" && header[|header| - 1] == ']'
    ensures !Sets(header, key)
  {
  }

  lemma {:induction false} ItemsUnlike(texts: seq<string>, key: string)
    requires key != "" && key[0] != ' '
    ensures NoneSets(Items(texts), key)
  {
    if texts == [] {
    } else {
      ItemsUnlike(texts[1..], key);
      Unlike(Item(texts[0]), key, 0);
    }
  }

  // ---------------------------------------------------------------- the blocks

  lemma {:induction false} NamesSet(c: Config, more: seq<string>)
    ensures var block := ProjectNames(c) + more;
      && Setting(block, "name") == Some(c.pypiName)
      && Setting(block, "version") == Some(c.version)
      && Setting(block, "description") == Some(c.description)
      && Setting(block, "readme") == Some("README.md")
      && Setting(block, "license") == Some("Apache-2.0")
  {
    var block := ProjectNames(c) + more;
    ThirdSetting("[project]", "name", c.pypiName, "version", c.version, "description", c.description, block);
    FixedSettings(block, c.pypiName, c.version, c.description);
  }

  lemma {:induction false} FixedLines(readme: string, license: string)
    requires readme == "readme = \"README.md\"" && license == "license = \"Apache-2.0\""
    ensures readme == Quoted("readme", "README.md") && license == Quoted("license", "Apache-2.0")
  {
  }

  lemma {:induction false} FixedSettings(block: seq<string>, name: string, version: string, description: string)
    requires |block| >= 6 && block[0] == "[project]" && block[1] == Quoted("name", name)
    requires block[2] == Quoted("version", version) && block[3] == Quoted("description", description)
    requires block[4] == "readme = \"README.md\"" && block[5] == "license = \"Apache-2.0\""
    ensures Setting(block, "readme") == Some("README.md") && Setting(block, "license") == Some("Apache-2.0")
  {
    FixedLines(block[4], block[5]);
    SettingFirst(block, "readme", "README.md", 4);
    SettingFirst(block, "license", "Apache-2.0", 5);
  }

  lemma {:induction false} SettingFirst(block: seq<string>, key: string, value: string, n: nat)
    requires n < |block| && key != "" && block[n] == Quoted(key, value)
    requires forall i :: 0 <= i < n ==> block[i] != "" && block[i][0] != key[0]
    ensures Setting(block, key) == Some(value)
  {
    UnlikeFirst(block[..n], key);
    forall i | 0 <= i < n ensures !Sets(block[i], key) {
      assert block[..n][i] == block[i];
    }
    SettingAt(block, key, value, n);
  }

  lemma {:induction false} UnlikeFirst(lines: seq<string>, key: string)
    requires key != "" && forall i :: 0 <= i < |lines| ==> lines[i] != "" && lines[i][0] != key[0]
    ensures NoneSets(lines, key)
  {
    forall i | 0 <= i < |lines| ensures !Sets(lines[i], key) {
      Unlike(lines[i], key, 0);
    }
  }

  lemma {:induction false} ThirdSetting(
    header: string, k1: string, v1: string, k2: string, v2: string, k3: string, v3: string, block: seq<string>)
    requires |block| >= 4 && block[0] == header
    requires block[1] == Quoted(k1, v1) && block[2] == Quoted(k2, v2) && block[3] == Quoted(k3, v3)
    requires header != "" && k1 != "" && k2 != "" && k3 != ""
    requires header[0] != k1[0] && header[0] != k2[0] && header[0] != k3[0]
    requires k1[0] != k2[0] && k1[0] != k3[0] && k2[0] != k3[0]
    ensures Setting(block, k1) == Some(v1) && Setting(block, k2) == Some(v2) && Setting(block, k3) == Some(v3)
  {
    Unlike(header, k1, 0);
    Unlike(header, k2, 0);
    Unlike(header, k3, 0);
    Unlike(Quoted(k1, v1), k2, 0);
    Unlike(Quoted(k1, v1), k3, 0);
    Unlike(Quoted(k2, v2), k3, 0);
    SettingAt(block, k1, v1, 1);
    SettingAt(block, k2, v2, 2);
    SettingAt(block, k3, v3, 3);
  }

  lemma {:induction false} SettingAt(block: seq<string>, key: string, value: string, n: nat)
    requires n < |block| && block[n] == Quoted(key, value)
    requires forall i :: 0 <= i < n ==> !Sets(block[i], key)
    ensures Setting(block, key) == Some(value)
  {
    SettingHere(key, value, block[n + 1..]);
    SettingLater(block[..n], block[n..], key);
    assert block[n..] == [block[n]] + block[n + 1..];
    assert block == block[..n] + block[n..];
  }

  lemma {:induction false} NamesUnlike(c: Config, key: string)
    requires key == "requires-python"
    ensures NoneSets(ProjectNames(c), key)
  {
    var names := ProjectNames(c);
    assert key[0] == 'r' && key[2] == 'q';
    forall i | 0 <= i < |names| ensures !Sets(names[i], key) {
      NameUnlike(c, key, i);
    }
  }

  lemma {:induction false} NameUnlike(c: Config, key: string, i: nat)
    requires |key| > 2 && key[0] == 'r' && key[2] == 'q' && i < |ProjectNames(c)|
    ensures !Sets(ProjectNames(c)[i], key)
  {
    var line := ProjectNames(c)[i];
    Unlike(line, key, if i == 4 then 2 else 0);
  }

  lemma {:induction false} ListsUnlike(c: Config, key: string)
    requires key != "" && key[0] == 'r'
    ensures NoneSets(ProjectLists(c), key)
  {
    OpenUnlike(CLASSIFIERS_OPEN, key);
    FiveUnlike(KEYWORDS, CLASSIFIERS_OPEN, CLASSIFIERS, VersionClassifiers(c.pythonVersions), TOPICS, key);
  }

  lemma {:induction false} OpenUnlike(open: seq<string>, key: string)
    requires open == CLASSIFIERS_OPEN && key != "" && key[0] == 'r'
    ensures NoneSets(open, key)
  {
    Unlike(open[0], key, 0);
    Unlike(open[1], key, 0);
  }

  lemma {:induction false} FiveUnlike(
    a: seq<string>, open: seq<string>, b: seq<string>, c: seq<string>, d: seq<string>, key: string)
    requires key != "" && key[0] != ' ' && NoneSets(open, key)
    ensures NoneSets(Items(a) + open + Items(b) + Items(c) + Items(d), key)
  {
    ItemsUnlike(a, key);
    ItemsUnlike(b, key);
    ItemsUnlike(c, key);
    ItemsUnlike(d, key);
    AmongFive(Items(a), open, Items(b), Items(c), Items(d), key);
  }

  lemma {:induction false} AmongFive(
    a: seq<string>, b: seq<string>, c: seq<string>, d: seq<string>, e: seq<string>, key: string)
    requires NoneSets(a, key)
    requires NoneSets(b, key)
    requires NoneSets(c, key)
    requires NoneSets(d, key)
    requires NoneSets(e, key)
    ensures NoneSets(a + b + c + d + e, key)
  {
  }

  /** The [project] block sets its keys to the configured values. */
  lemma {:induction false} ProjectSays(c: Config)
    ensures var block := ProjectBlock(c);
      && Setting(block, "name") == Some(c.pypiName)
      && Setting(block, "version") == Some(c.version)
      && Setting(block, "description") == Some(c.description)
      && Setting(block, "readme") == Some("README.md")
      && Setting(block, "license") == Some("Apache-2.0")
      && Setting(block, "requires-python") == Some(">=" + c.minPython)
  {
    assert ProjectBlock(c) == ProjectNames(c) + (ProjectLists(c) + ProjectTail(c));
    NamesSet(c, ProjectLists(c) + ProjectTail(c));
    RequiresPython(c, "requires-python");
  }

  lemma {:induction false} SettingLast(a: seq<string>, b: seq<string>, c: seq<string>, key: string)
    requires NoneSets(a, key) && NoneSets(b, key)
    ensures Setting(a + (b + c), key) == Setting(c, key)
  {
    SettingLater(a, b + c, key);
    SettingLater(b, c, key);
  }

  lemma {:induction false} TailSays(c: Config, key: string)
    requires key == "requires-python"
    ensures Setting(ProjectTail(c), key) == Some(">=" + c.minPython)
  {
    var tail := ProjectTail(c);
    assert tail[1] == Quoted(key, ">=" + c.minPython);
    HeaderSetsNothing(tail[0], key);
    SettingAt(tail, key, ">=" + c.minPython, 1);
  }

  lemma {:induction false} RequiresPython(c: Config, key: string)
    requires key == "requires-python"
    ensures Setting(ProjectNames(c) + (ProjectLists(c) + ProjectTail(c)), key) == Some(">=" + c.minPython)
  {
    NamesUnlike(c, key);
    ListsUnlike(c, key);
    TailSays(c, key);
    SettingLast(ProjectNames(c), ProjectLists(c), ProjectTail(c), key);
  }

  /** The author and maintainer lists name the configured person. */
  lemma {:induction false} PeopleNamed(c: Config)
    ensures ProjectBlock(c)[6..12] ==
      [ "authors = [", "    {" + ("name = \"" + c.author + "\", email = \"" + c.email + "\"},"), "]",
        "maintainers = [", "    {" + ("name = \"" + c.author + "\", email = \"" + c.email + "\"},"), "]" ]
  {
    assert ProjectBlock(c)[6..12] == ProjectNames(c)[6..12];
  }

  /** There is a classifier for each version that is not blank, and for nothing else. */
  lemma {:induction false} VersionsClassified(versions: seq<string>, text: string)
    ensures text in VersionClassifiers(versions) <==>
      exists i :: 0 <= i < |versions| && Strip(versions[i]) != ""
                  && text == "Programming Language :: Python :: " + Strip(versions[i])
  {
    if versions == [] {
    } else {
      VersionsClassified(versions[1..], text);
      if i :| 0 <= i < |versions| && Strip(versions[i]) != ""
              && text == "Programming Language :: Python :: " + Strip(versions[i])
      {
        assert i > 0 ==> versions[1..][i - 1] == versions[i];
      }
      if j :| 0 <= j < |versions[1..]| && Strip(versions[1..][j]) != ""
              && text == "Programming Language :: Python :: " + Strip(versions[1..][j])
      {
        assert versions[j + 1] == versions[1..][j];
      }
    }
  }

  lemma {:induction false} UrlsSay(c: Config)
    ensures var block := UrlsBlock(c);
      && Setting(block, "Homepage") == Some(c.repoUrl)
      && Setting(block, "Documentation") == Some(c.docsUrl)
      && Setting(block, "Repository") == Some(c.repoUrl)
      && Setting(block, "\"Bug Reports\"") == Some(c.issuesUrl)
  {
    var block := UrlsBlock(c);
    ThirdSetting("[project.urls]", "Homepage", c.repoUrl, "Documentation", c.docsUrl, "Repository", c.repoUrl, block);
    FourthSetting(block, "\"Bug Reports\"", c.issuesUrl);
  }

  lemma {:induction false} FourthSetting(block: seq<string>, key: string, value: string)
    requires |block| > 4 && block[4] == Quoted(key, value) && key != ""
    requires forall i :: 0 <= i < 4 ==> block[i] != "" && block[i][0] != key[0]
    ensures Setting(block, key) == Some(value)
  {
    forall i | 0 <= i < 4 ensures !Sets(block[i], key) {
      Unlike(block[i], key, 0);
    }
    SettingAt(block, key, value, 4);
  }

  lemma {:induction false} ScriptsSay(c: Config)
    ensures Setting(ScriptsBlock(c), c.shortName) == Some("orb.run:cli_main")
  {
    var block := ScriptsBlock(c);
    assert Quoted(c.shortName, "orb.run:cli_main") == ScriptLine(c);
    HeaderSetsNothing(block[0], c.shortName);
    SettingAt(block, c.shortName, "orb.run:cli_main", 1);
  }

  lemma {:induction false} MypySays(c: Config)
    ensures Setting(MypyBlock(c), "python_version") == Some(c.defaultPython)
  {
    var block := MypyBlock(c);
    assert block[0] == "[tool.mypy]" && block[1] == Quoted("python_version", c.defaultPython);
    HeaderSetsNothing(block[0], "python_version");
    SettingAt(block, "python_version", c.defaultPython, 1);
  }

  // ---------------------------------------------------------------- sections of a file

  lemma {:induction false} TestsAreReal(c: Config)
    ensures RealTests(TemplateOf(c))
  {
  }

  /**
   The dependency list survives.  Wherever a [project] section stands in a file, whatever else is in
   it, the update writes the metadata and keeps everything from its dependencies line on.
   */
  lemma {:induction false} DependenciesSurvive(
    c: Config, before: seq<string>, header: string, skipped: seq<string>, kept: seq<string>, after: seq<string>)
    requires Begins(header, "[project]")
    requires NoneBegins(skipped, "[") && NoneBegins(skipped, "dependencies")
    requires NoneBegins(kept, "[") && (kept == [] || Begins(kept[0], "dependencies")) && NextSection(after)
    ensures Rewrite(TemplateOf(c), before + (([header] + (skipped + kept)) + after)) ==
            Rewrite(TemplateOf(c), before) + ((ProjectBlock(c) + kept) + Rewrite(TemplateOf(c), after))
  {
    TestsAreReal(c);
    ProjectInPlace(TemplateOf(c), before, header, skipped, kept, after);
  }

  lemma {:induction false} ProjectInPlace(
    t: Template, before: seq<string>, header: string, skipped: seq<string>, kept: seq<string>, after: seq<string>)
    requires RealTests(t) && Begins(header, "[project]")
    requires NoneBegins(skipped, "[") && NoneBegins(skipped, "dependencies")
    requires NoneBegins(kept, "[") && (kept == [] || Begins(kept[0], "dependencies")) && NextSection(after)
    ensures Rewrite(t, before + (([header] + (skipped + kept)) + after)) ==
            Rewrite(t, before) + ((t.project + kept) + Rewrite(t, after))
  {
    var section := [header] + (skipped + kept);
    assert section[1..] == skipped + kept;
    PrefixOpens(Strip(header), "[project]");
    ProjectSection(t, header, skipped, kept);
    InPlace(t, before, section, after);
  }

  /** The hand-written coverage keys survive, below the managed ones. */
  lemma {:induction false} CoverageKeysSurvive(
    c: Config, before: seq<string>, header: string, body: seq<string>, after: seq<string>)
    requires Begins(header, "[tool.coverage.run]") && NoneBegins(body, "[") && NextSection(after)
    ensures var head := ["[tool.coverage.run]", "source = [\"" + c.packageRoot + "\"]", "branch = true"];
      Rewrite(TemplateOf(c), before + (([header] + body) + after)) ==
      Rewrite(TemplateOf(c), before) + ((head + HandWritten(body)) + Rewrite(TemplateOf(c), after))
  {
    TestsAreReal(c);
    CoverageInPlace(TemplateOf(c), before, header, body, after);
  }

  lemma {:induction false} CoverageInPlace(
    t: Template, before: seq<string>, header: string, body: seq<string>, after: seq<string>)
    requires RealTests(t) && Begins(header, "[tool.coverage.run]") && NoneBegins(body, "[") && NextSection(after)
    ensures Rewrite(t, before + (([header] + body) + after)) ==
            Rewrite(t, before) + ((t.coverage + HandWritten(body)) + Rewrite(t, after))
  {
    assert ([header] + body)[1..] == body;
    PrefixOpens(Strip(header), "[tool.coverage.run]");
    CoverageSection(t, header, body);
    InPlace(t, before, [header] + body, after);
  }

  /** A section of any other kind: its block, or the section itself when it is not managed. */
  lemma {:induction false} SectionOutcome(
    t: Template, before: seq<string>, header: string, body: seq<string>, after: seq<string>)
    requires RealTests(t) && Begins(header, "[") && NoneBegins(body, "[") && NextSection(after)
    ensures exists out ::
      && Rewrite(t, before + (([header] + body) + after)) == Rewrite(t, before) + (out + Rewrite(t, after))
      && (Begins(header, "[project.urls]") ==> out == t.urls)
      && (Begins(header, "[project.scripts]") ==> out == t.scripts)
      && (Begins(header, "[tool.mypy]") ==> out == t.mypy)
      && (BeginsNoManaged(header) ==> out == [header] + body)
  {
    assert ([header] + body)[1..] == body;
    OtherSections(t, header, body);
    InPlace(t, before, [header] + body, after);
  }

  // ---------------------------------------------------------------- the file

  /** On the text of the file: the lines are split, rewritten and joined, and nothing else. */
  lemma {:induction false} UpdateOfLines(c: Config, lines: seq<string>)
    requires lines != [] && forall i :: 0 <= i < |lines| ==> OneLine(lines[i])
    ensures Rewrite(TemplateOf(c), lines) != [] && SplitLines(JoinLines(lines)) == lines
    ensures UpdatedText(TemplateOf(c), JoinLines(lines)) == JoinLines(Rewrite(TemplateOf(c), lines))
  {
    TemplateWellFormed(c);
    SplitJoinLines(lines);
    RewriteNonEmpty(TemplateOf(c), lines);
  }

  /**
   The [project] section after an update: each managed key has its configured value, whatever the
   kept lines below it say.
   */
  lemma {:induction false} MetadataUpdated(c: Config, kept: seq<string>)
    ensures var section := ProjectBlock(c) + kept;
      && Setting(section, "name") == Some(c.pypiName)
      && Setting(section, "version") == Some(c.version)
      && Setting(section, "description") == Some(c.description)
      && Setting(section, "requires-python") == Some(">=" + c.minPython)
  {
    ProjectSays(c);
    AllStay(ProjectBlock(c), kept, "name", "version", "description", "requires-python");
  }

  lemma {:induction false} AllStay(
    block: seq<string>, more: seq<string>, k1: string, k2: string, k3: string, k4: string)
    requires Setting(block, k1).Some? && Setting(block, k2).Some?
    requires Setting(block, k3).Some? && Setting(block, k4).Some?
    ensures Setting(block + more, k1) == Setting(block, k1) && Setting(block + more, k2) == Setting(block, k2)
    ensures Setting(block + more, k3) == Setting(block, k3) && Setting(block + more, k4) == Setting(block, k4)
  {
    SettingStays(block, more, k1);
    SettingStays(block, more, k2);
    SettingStays(block, more, k3);
    SettingStays(block, more, k4);
  }
}
