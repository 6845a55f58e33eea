/** The rewriter on the text of a file, for all templates. */
module PyprojectFile {
  import opened PythonText
  import opened PyprojectLayout
  import opened PyprojectLaws

  /** All lines a template can write. */
  function Generated(t: Template): seq<string> {
    t.project + t.urls + t.scripts + t.mypy + t.coverage
  }

  lemma {:induction false} SectionLines(t: Template, section: seq<string>)
    requires section != []
    ensures forall x :: x in RewriteSection(t, section) ==> x in section || x in Generated(t)
  {
    match t.header(section[0])
    case Project => DependenciesAmong(t, section[1..]);
    case Coverage => KeysAmong(t, section[1..]);
    case _ =>
  }

  lemma {:induction false} DependenciesAmong(t: Template, body: seq<string>)
    ensures forall x :: x in FromDependencies(t, body) ==> x in body
  {
    if body != [] && !t.dependencies(body[0]) {
      DependenciesAmong(t, body[1..]);
    }
  }

  lemma {:induction false} KeysAmong(t: Template, body: seq<string>)
    ensures forall x :: x in WithoutCoverageKeys(t, body) ==> x in body
  {
    if body == [] {
    } else {
      KeysAmong(t, body[1..]);
    }
  }

  /** Every line of the output is a generated line or a line of the input. */
  lemma {:induction false} RewrittenLines(t: Template, lines: seq<string>)
    ensures forall x :: x in Rewrite(t, lines) ==> x in lines || x in Generated(t)
    decreases |lines|
  {
    if lines == [] {
    } else {
      var section, rest := FirstSection(t, lines);
      SectionLines(t, section);
      RewrittenLines(t, rest);
    }
  }

  lemma {:induction false} RewriteNonEmpty(t: Template, lines: seq<string>)
    requires WellFormed(t) && lines != []
    ensures Rewrite(t, lines) != []
  {
    var section, rest := FirstSection(t, lines);
    FirstLine(t, section);
  }

  function UpdatedText(t: Template, content: string): string
    requires Rewrite(t, SplitLines(content)) != []
  {
    JoinLines(Rewrite(t, SplitLines(content)))
  }

  /** Every configured value fits on one line. */
  ghost predicate SingleLineValues(t: Template) {
    forall line :: line in Generated(t) ==> OneLine(line)
  }

  lemma {:induction false} RewrittenSplits(t: Template, content: string)
    requires SingleLineValues(t) && Rewrite(t, SplitLines(content)) != []
    ensures SplitLines(UpdatedText(t, content)) == Rewrite(t, SplitLines(content))
  {
    var lines := SplitLines(content);
    RewrittenLines(t, lines);
    SplitGivesLines(content);
    var out := Rewrite(t, lines);
    forall i | 0 <= i < |out| ensures OneLine(out[i]) {
      assert out[i] in out;
      if out[i] in lines {
        var j :| 0 <= j < |lines| && lines[j] == out[i];
      }
    }
    SplitJoinLines(out);
  }

  /**
   For every file and every template with single-line values, a second update leaves the text of the
   file as the first one wrote it, exactly when the script line does not look like a header or there
   is no scripts section.
   */
  lemma {:induction false} TextTwice(t: Template, content: string)
    requires WellFormed(t) && SingleLineValues(t)
    ensures Rewrite(t, SplitLines(content)) != []
    ensures var once := UpdatedText(t, content);
      && Rewrite(t, SplitLines(once)) != []
      && (UpdatedText(t, once) == once <==> ScriptNameOk(t) || !HasScripts(t, SplitLines(content)))
  {
    var lines := SplitLines(content);
    RewriteNonEmpty(t, lines);
    var once := UpdatedText(t, content);
    RewriteNonEmpty(t, SplitLines(once));
    RewrittenSplits(t, content);
    RewrittenSplits(t, once);
    Idempotence(t, lines);
  }
}
