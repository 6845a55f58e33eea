/**
 Rewriting twice is rewriting once, for every file, exactly when the configured script name does
 not make its line look like a section header or the file has no scripts section.
 */
module PyprojectLaws {
  import opened PyprojectLayout

  // ---------------------------------------------------------------- templates

  /** A block that is one section of the given kind. */
  ghost predicate OneSection(t: Template, block: seq<string>, kind: Header) {
    block != [] && t.header(block[0]) == kind && Plain(t, block[1..])
  }

  /** The managed text of a section. */
  function BlockOf(t: Template, h: Header): seq<string> {
    match h
    case Project => t.project
    case Urls => t.urls
    case Scripts => t.scripts
    case Mypy => t.mypy
    case Coverage => t.coverage
    case _ => []
  }

  /** What holds of the templates whatever the configured values are. */
  ghost predicate WellFormed(t: Template) {
    && OneSection(t, t.project, Project)
    && (forall i :: 1 <= i < |t.project| ==> !t.dependencies(t.project[i]))
    && OneSection(t, t.urls, Urls)
    && OneSection(t, t.mypy, Mypy)
    && OneSection(t, t.coverage, Coverage)
    && (forall i :: 1 <= i < |t.coverage| ==> t.coverageKey(t.coverage[i]))
    && |t.scripts| == 3 && t.header(t.scripts[0]) == Scripts && !t.IsHeader(t.scripts[2])
    && (forall h :: BlockOf(t, h) != [] ==> t.scripts[1] != BlockOf(t, h)[0])
  }

  /** The configured script name does not make its line look like a header. */
  predicate ScriptNameOk(t: Template)
    requires |t.scripts| == 3
  {
    !t.IsHeader(t.scripts[1])
  }

  ghost predicate HasScripts(t: Template, lines: seq<string>) {
    exists i :: 0 <= i < |lines| && t.header(lines[i]) == Scripts
  }

  // ---------------------------------------------------------------- bodies

  lemma {:induction false} DependenciesAfter(t: Template, skipped: seq<string>, body: seq<string>)
    requires forall i :: 0 <= i < |skipped| ==> !t.dependencies(skipped[i])
    ensures FromDependencies(t, skipped + FromDependencies(t, body)) == FromDependencies(t, body)
  {
    var kept := FromDependencies(t, body);
    if skipped == [] {
      assert skipped + kept == kept;
      DependenciesFirst(t, body);
    } else {
      assert (skipped + kept)[1..] == skipped[1..] + kept;
      DependenciesAfter(t, skipped[1..], body);
    }
  }

  lemma {:induction false} DependenciesFirst(t: Template, body: seq<string>)
    ensures var kept := FromDependencies(t, body); kept == [] || t.dependencies(kept[0])
    ensures Plain(t, body) ==> Plain(t, FromDependencies(t, body))
  {
    if body != [] && !t.dependencies(body[0]) {
      DependenciesFirst(t, body[1..]);
    }
  }

  lemma {:induction false} KeysAfter(t: Template, keys: seq<string>, body: seq<string>)
    requires forall i :: 0 <= i < |keys| ==> t.coverageKey(keys[i])
    ensures WithoutCoverageKeys(t, keys + WithoutCoverageKeys(t, body)) == WithoutCoverageKeys(t, body)
  {
    var kept := WithoutCoverageKeys(t, body);
    if keys == [] {
      assert keys + kept == kept;
      KeysGone(t, body);
    } else {
      assert (keys + kept)[1..] == keys[1..] + kept;
      KeysAfter(t, keys[1..], body);
    }
  }

  lemma {:induction false} KeysGone(t: Template, body: seq<string>)
    ensures WithoutCoverageKeys(t, WithoutCoverageKeys(t, body)) == WithoutCoverageKeys(t, body)
    ensures Plain(t, body) ==> Plain(t, WithoutCoverageKeys(t, body))
  {
    if body == [] {
    } else {
      KeysGone(t, body[1..]);
      var more := WithoutCoverageKeys(t, body[1..]);
      if !t.coverageKey(body[0]) {
        assert ([body[0]] + more)[1..] == more;
      } else {
        assert [] + more == more;
      }
    }
  }

  // ---------------------------------------------------------------- one section

  /** A section that rewriting turns into one section again. */
  ghost predicate Stable(t: Template, section: seq<string>)
    requires |t.scripts| == 3
  {
    section != [] && Plain(t, section[1..]) && (t.header(section[0]) == Scripts ==> ScriptNameOk(t))
  }

  lemma {:induction false} RewrittenSection(t: Template, section: seq<string>)
    requires WellFormed(t) && Stable(t, section)
    ensures var out := RewriteSection(t, section);
      out != [] && Plain(t, out[1..]) && t.header(out[0]) == t.header(section[0])
  {
    var body := section[1..];
    match t.header(section[0])
    case Project =>
      DependenciesFirst(t, body);
      ExtendedSection(t, t.project, FromDependencies(t, body), Project);
    case Coverage =>
      KeysGone(t, body);
      ExtendedSection(t, t.coverage, WithoutCoverageKeys(t, body), Coverage);
    case _ =>
  }

  lemma {:induction false} ExtendedSection(t: Template, block: seq<string>, kept: seq<string>, kind: Header)
    requires OneSection(t, block, kind) && Plain(t, kept)
    ensures OneSection(t, block + kept, kind)
  {
    assert (block + kept)[1..] == block[1..] + kept;
  }

  lemma {:induction false} SectionTwice(t: Template, section: seq<string>)
    requires WellFormed(t) && Stable(t, section)
    ensures RewriteSection(t, section) != []
    ensures RewriteSection(t, RewriteSection(t, section)) == RewriteSection(t, section)
  {
    RewrittenSection(t, section);
    var body := section[1..];
    match t.header(section[0])
    case Project =>
      assert (t.project + FromDependencies(t, body))[1..] == t.project[1..] + FromDependencies(t, body);
      DependenciesAfter(t, t.project[1..], body);
    case Coverage =>
      assert (t.coverage + WithoutCoverageKeys(t, body))[1..] == t.coverage[1..] + WithoutCoverageKeys(t, body);
      KeysAfter(t, t.coverage[1..], body);
    case _ =>
  }

  lemma {:induction false} RewriteOne(t: Template, section: seq<string>)
    requires section != [] && Plain(t, section[1..])
    ensures Rewrite(t, section) == RewriteSection(t, section)
  {
    assert section + [] == section;
    RewriteCons(t, section, []);
    assert RewriteSection(t, section) + [] == RewriteSection(t, section);
  }

  /** A file cut into its first section and the rest. */
  lemma {:induction false} FirstSection(t: Template, lines: seq<string>) returns (section: seq<string>, rest: seq<string>)
    requires lines != []
    ensures lines == section + rest && section != [] && |rest| < |lines| && section[0] == lines[0]
    ensures Plain(t, section[1..]) && AtHeader(t, rest)
    ensures Rewrite(t, lines) == RewriteSection(t, section) + Rewrite(t, rest)
  {
    var n := BodyLength(t, lines[1..]);
    section, rest := lines[..n + 1], lines[n + 1..];
    forall i | 0 <= i < n ensures !t.IsHeader(section[1..][i]) {
      assert section[1..][i] == lines[1..][i];
    }
    assert rest != [] ==> rest[0] == lines[1..][n];
    assert lines == section + rest;
    RewriteCons(t, section, rest);
  }

  lemma {:induction false} RewriteAtHeader(t: Template, lines: seq<string>)
    requires WellFormed(t) && AtHeader(t, lines)
    ensures AtHeader(t, Rewrite(t, lines))
  {
    if lines == [] {
    } else {
      var section, rest := FirstSection(t, lines);
      FirstLine(t, section);
    }
  }

  /** The first line of a section is a header of the same kind before and after. */
  lemma {:induction false} FirstLine(t: Template, section: seq<string>)
    requires WellFormed(t) && section != []
    ensures var out := RewriteSection(t, section); out != [] && t.header(out[0]) == t.header(section[0])
  {
  }

  // ---------------------------------------------------------------- idempotence

  /** Every section of the file is stable. */
  ghost predicate AllStable(t: Template, lines: seq<string>)
    requires |t.scripts| == 3
  {
    ScriptNameOk(t) || !HasScripts(t, lines)
  }

  lemma {:induction false} RestStable(t: Template, section: seq<string>, rest: seq<string>)
    requires |t.scripts| == 3 && section != [] && AllStable(t, section + rest)
    ensures AllStable(t, rest) && (t.header(section[0]) == Scripts ==> ScriptNameOk(t))
  {
    var lines := section + rest;
    if !ScriptNameOk(t) {
      assert t.header(lines[0]) != Scripts;
      forall i | 0 <= i < |rest| ensures t.header(rest[i]) != Scripts {
        assert lines[|section| + i] == rest[i];
      }
    }
  }

  lemma {:induction false} TwiceIsOnce(t: Template, lines: seq<string>)
    requires WellFormed(t) && AllStable(t, lines)
    ensures Rewrite(t, Rewrite(t, lines)) == Rewrite(t, lines)
    decreases |lines|
  {
    if lines == [] {
    } else {
      var section, rest := FirstSection(t, lines);
      RestStable(t, section, rest);
      TwiceIsOnce(t, rest);
      RewriteAtHeader(t, rest);
      RewriteAppend(t, RewriteSection(t, section), Rewrite(t, rest));
      RewrittenSection(t, section);
      RewriteOne(t, RewriteSection(t, section));
      SectionTwice(t, section);
    }
  }

  /** With a script name that looks like a header, a second pass over its block adds lines. */
  lemma {:induction false} ScriptsGrow(t: Template)
    requires WellFormed(t) && !ScriptNameOk(t)
    ensures |Rewrite(t, t.scripts)| > |t.scripts|
  {
    var head, tail := t.scripts[..1], t.scripts[1..];
    assert t.scripts == head + tail;
    RewriteCons(t, head, tail);
    assert tail[1..] == [t.scripts[2]];
    RewriteOne(t, tail);
    FirstLine(t, tail);
  }

  lemma {:induction false} TwiceIsLonger(t: Template, lines: seq<string>)
    requires WellFormed(t) && !ScriptNameOk(t)
    ensures |Rewrite(t, Rewrite(t, lines))| >= |Rewrite(t, lines)|
    ensures HasScripts(t, lines) ==> |Rewrite(t, Rewrite(t, lines))| > |Rewrite(t, lines)|
    decreases |lines|
  {
    if lines == [] {
    } else {
      var section, rest := FirstSection(t, lines);
      TwiceIsLonger(t, rest);
      RewriteAtHeader(t, rest);
      RewriteAppend(t, RewriteSection(t, section), Rewrite(t, rest));
      if t.header(section[0]) == Scripts {
        ScriptsGrow(t);
      } else {
        RewrittenSection(t, section);
        RewriteOne(t, RewriteSection(t, section));
        SectionTwice(t, section);
        if HasScripts(t, lines) {
          ScriptsInRest(t, section, rest);
        }
      }
    }
  }

  lemma {:induction false} ScriptsInRest(t: Template, section: seq<string>, rest: seq<string>)
    requires section != [] && Plain(t, section[1..]) && t.header(section[0]) != Scripts
    requires HasScripts(t, section + rest)
    ensures HasScripts(t, rest)
  {
    var lines := section + rest;
    forall j | 0 < j < |section| ensures t.header(lines[j]) != Scripts {
      assert lines[j] == section[1..][j - 1];
    }
    var i :| 0 <= i < |lines| && t.header(lines[i]) == Scripts;
    assert t.header(rest[i - |section|]) == Scripts;
  }

  /**
   Rewriting a rewritten file changes nothing, exactly when the script name does not look like a
   section header or the file has no scripts section.
   */
  lemma {:induction false} Idempotence(t: Template, lines: seq<string>)
    requires WellFormed(t)
    ensures Rewrite(t, Rewrite(t, lines)) == Rewrite(t, lines) <==> ScriptNameOk(t) || !HasScripts(t, lines)
  {
    if AllStable(t, lines) {
      TwiceIsOnce(t, lines);
    } else {
      TwiceIsLonger(t, lines);
    }
  }
}
