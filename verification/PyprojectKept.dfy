/**
 What the rewriter promises about the text around its own: the current managed text stands under
 every managed header, the sections keep their order, and every line outside the managed text
 survives in place.  Each promise is kept by some files and not by others when the configured script
 name makes its line look like a section header; here is exactly when.
 */
module PyprojectKept {
  import opened PyprojectLayout
  import opened PyprojectLaws

  // ---------------------------------------------------------------- managed text

  /** If line i opens a managed section, the managed text stands there, whole where it is replaced. */
  ghost predicate UpToDate(t: Template, lines: seq<string>, i: nat)
    requires i < |lines|
  {
    var h := t.header(lines[i]);
    var block := BlockOf(t, h);
    && i + |block| <= |lines| && lines[i..i + |block|] == block
    && (h.Urls? || h.Scripts? || h.Mypy? ==> AtHeader(t, lines[i + |block|..]))
  }

  /** Every line that opens a managed section has its text below it. */
  ghost predicate AllUpToDate(t: Template, lines: seq<string>) {
    forall i :: 0 <= i < |lines| ==> UpToDate(t, lines, i)
  }

  /** A line that opens no managed section. */
  predicate LeftAlone(t: Template, line: string) {
    t.header(line).NotHeader? || t.header(line).Unmanaged?
  }

  /** The script line is harmless to managed text: it is no header, or one the rewriter leaves alone. */
  predicate ScriptLineUnmanaged(t: Template)
    requires |t.scripts| == 3
  {
    LeftAlone(t, t.scripts[1])
  }

  lemma {:induction false} LaterUpToDate(t: Template, a: seq<string>, b: seq<string>, i: nat)
    requires i < |b| && UpToDate(t, b, i)
    ensures UpToDate(t, a + b, |a| + i)
  {
    var n := |BlockOf(t, t.header(b[i]))|;
    assert (a + b)[|a| + i..|a| + i + n] == b[i..i + n];
    assert (a + b)[|a| + i + n..] == b[i + n..];
  }

  ghost predicate LeftAloneBelow(t: Template, a: seq<string>) {
    forall i :: 1 <= i < |a| ==> LeftAlone(t, a[i])
  }

  lemma {:induction false} JoinUpToDate(t: Template, a: seq<string>, b: seq<string>)
    requires a != [] && LeftAloneBelow(t, a) && UpToDate(t, a + b, 0) && AllUpToDate(t, b)
    ensures AllUpToDate(t, a + b)
  {
    forall i | 0 <= i < |a + b| ensures UpToDate(t, a + b, i) {
      if 0 < i < |a| {
        assert (a + b)[i] == a[i] && LeftAlone(t, a[i]);
      } else if i >= |a| {
        LaterUpToDate(t, a, b, i - |a|);
      }
    }
  }

  lemma {:induction false} FirstUpToDate(t: Template, section: seq<string>, b: seq<string>)
    requires WellFormed(t) && section != [] && AtHeader(t, b)
    ensures var a := RewriteSection(t, section); a != [] && UpToDate(t, a + b, 0)
  {
    FirstLine(t, section);
    var a := RewriteSection(t, section);
    var block := BlockOf(t, t.header(section[0]));
    assert block <= a;
    assert (a + b)[0..|block|] == block;
    if block == a {
      assert (a + b)[|block|..] == b;
    }
  }

  lemma {:induction false} SectionLeftAlone(t: Template, section: seq<string>)
    requires WellFormed(t) && section != [] && Plain(t, section[1..])
    requires t.header(section[0]) == Scripts ==> ScriptLineUnmanaged(t)
    ensures LeftAloneBelow(t, RewriteSection(t, section))
  {
    var out := RewriteSection(t, section);
    if t.header(section[0]) != Scripts {
      RewrittenSection(t, section);
      forall i | 1 <= i < |out| ensures LeftAlone(t, out[i]) {
        assert out[i] == out[1..][i - 1];
      }
    }
  }

  lemma {:induction false} UpToDateIf(t: Template, lines: seq<string>)
    requires WellFormed(t) && (ScriptLineUnmanaged(t) || !HasScripts(t, lines))
    ensures AllUpToDate(t, Rewrite(t, lines))
    decreases |lines|
  {
    if lines == [] {
    } else {
      var section, rest := FirstSection(t, lines);
      FewerScripts(t, section, rest);
      UpToDateIf(t, rest);
      RewriteAtHeader(t, rest);
      FirstUpToDate(t, section, Rewrite(t, rest));
      SectionLeftAlone(t, section);
      JoinUpToDate(t, RewriteSection(t, section), Rewrite(t, rest));
    }
  }

  lemma {:induction false} FewerScripts(t: Template, section: seq<string>, rest: seq<string>)
    requires section != []
    ensures HasScripts(t, rest) || t.header(section[0]) == Scripts ==> HasScripts(t, section + rest)
  {
    var lines := section + rest;
    assert lines[0] == section[0];
    if HasScripts(t, rest) {
      var i :| 0 <= i < |rest| && t.header(rest[i]) == Scripts;
      assert lines[|section| + i] == rest[i];
    }
  }

  /** A scripts section puts its script line into the output. */
  lemma {:induction false} ScriptLineWritten(t: Template, lines: seq<string>)
    requires WellFormed(t) && HasScripts(t, lines)
    ensures t.scripts[1] in Rewrite(t, lines)
    decreases |lines|
  {
    var section, rest := FirstSection(t, lines);
    if t.header(section[0]) == Scripts {
      assert RewriteSection(t, section) == t.scripts;
    } else {
      ScriptsInRest(t, section, rest);
      ScriptLineWritten(t, rest);
    }
    InEither(t.scripts[1], RewriteSection(t, section), Rewrite(t, rest));
  }

  lemma {:induction false} InEither(line: string, a: seq<string>, b: seq<string>)
    requires line in a || line in b
    ensures line in a + b
  {
  }

  /**
   Wherever a managed header stands in the output, the current managed text follows it, exactly when
   the script line is not taken for a managed header or the file has no scripts section.
   */
  lemma {:induction false} ManagedUpToDate(t: Template, lines: seq<string>)
    requires WellFormed(t)
    ensures AllUpToDate(t, Rewrite(t, lines)) <==> ScriptLineUnmanaged(t) || !HasScripts(t, lines)
  {
    if ScriptLineUnmanaged(t) || !HasScripts(t, lines) {
      UpToDateIf(t, lines);
    } else {
      var out := Rewrite(t, lines);
      ScriptLineWritten(t, lines);
      var i :| 0 <= i < |out| && out[i] == t.scripts[1];
      NotUpToDate(t, out, i);
    }
  }

  lemma {:induction false} NotUpToDate(t: Template, out: seq<string>, i: nat)
    requires WellFormed(t) && !ScriptLineUnmanaged(t) && i < |out| && out[i] == t.scripts[1]
    ensures !UpToDate(t, out, i)
  {
    var block := BlockOf(t, t.header(out[i]));
    assert block != [] && t.scripts[1] != block[0];
    assert i + |block| <= |out| ==> out[i..i + |block|][0] == out[i];
  }

  // ---------------------------------------------------------------- headers

  function Headers(t: Template, lines: seq<string>): seq<string> {
    if lines == [] then []
    else (if t.IsHeader(lines[0]) then [lines[0]] else []) + Headers(t, lines[1..])
  }

  /** A managed header as the template writes it; other headers as they are. */
  function Canonical(t: Template, header: string): string
    requires t.project != [] && t.urls != [] && t.scripts != [] && t.mypy != [] && t.coverage != []
  {
    match t.header(header)
    case Project => t.project[0]
    case Urls => t.urls[0]
    case Scripts => t.scripts[0]
    case Mypy => t.mypy[0]
    case Coverage => t.coverage[0]
    case _ => header
  }

  function CanonicalAll(t: Template, headers: seq<string>): seq<string>
    requires t.project != [] && t.urls != [] && t.scripts != [] && t.mypy != [] && t.coverage != []
  {
    if headers == [] then [] else [Canonical(t, headers[0])] + CanonicalAll(t, headers[1..])
  }

  lemma {:induction false} HeadersOfSection(t: Template, section: seq<string>, rest: seq<string>)
    requires section != [] && Plain(t, section[1..])
    ensures Headers(t, section + rest) ==
            (if t.IsHeader(section[0]) then [section[0]] else []) + Headers(t, rest)
  {
    assert (section + rest)[1..] == section[1..] + rest;
    HeadersOfPlain(t, section[1..], rest);
  }

  lemma {:induction false} HeadersOfPlain(t: Template, body: seq<string>, rest: seq<string>)
    requires Plain(t, body)
    ensures Headers(t, body + rest) == Headers(t, rest)
  {
    if body == [] {
      assert body + rest == rest;
    } else {
      assert (body + rest)[1..] == body[1..] + rest;
      HeadersOfPlain(t, body[1..], rest);
    }
  }

  /** What one header of the input becomes: a script line that looks like a header comes after its own. */
  function WrittenHeaders(t: Template, header: string): seq<string>
    requires t.project != [] && t.urls != [] && |t.scripts| == 3 && t.mypy != [] && t.coverage != []
  {
    [Canonical(t, header)] + if t.header(header) == Scripts && !ScriptNameOk(t) then [t.scripts[1]] else []
  }

  function WrittenAll(t: Template, headers: seq<string>): seq<string>
    requires t.project != [] && t.urls != [] && |t.scripts| == 3 && t.mypy != [] && t.coverage != []
  {
    if headers == [] then [] else WrittenHeaders(t, headers[0]) + WrittenAll(t, headers[1..])
  }

  lemma {:induction false} HeadersOfScripts(t: Template, rest: seq<string>)
    requires WellFormed(t) && !ScriptNameOk(t)
    ensures Headers(t, t.scripts + rest) == [t.scripts[0], t.scripts[1]] + Headers(t, rest)
  {
    var tail := t.scripts[1..] + rest;
    assert (t.scripts + rest)[0] == t.scripts[0] && (t.scripts + rest)[1..] == tail;
    HeadersOfSection(t, t.scripts[1..], rest);
  }

  lemma {:induction false} SectionHeaders(t: Template, section: seq<string>, rest: seq<string>)
    requires WellFormed(t) && section != [] && Plain(t, section[1..])
    ensures Headers(t, RewriteSection(t, section) + rest) ==
            (if t.IsHeader(section[0]) then WrittenHeaders(t, section[0]) else []) + Headers(t, rest)
  {
    if t.header(section[0]) == Scripts && !ScriptNameOk(t) {
      HeadersOfScripts(t, rest);
    } else {
      RewrittenSection(t, section);
      HeadersOfSection(t, RewriteSection(t, section), rest);
      FirstWritten(t, section);
    }
  }

  lemma {:induction false} FirstWritten(t: Template, section: seq<string>)
    requires WellFormed(t) && section != []
    ensures RewriteSection(t, section) != [] && RewriteSection(t, section)[0] == Canonical(t, section[0])
  {
  }

  /** For every file: the headers of the output are those of the input, each as it is written. */
  lemma {:induction false} HeadersWritten(t: Template, lines: seq<string>)
    requires WellFormed(t)
    ensures Headers(t, Rewrite(t, lines)) == WrittenAll(t, Headers(t, lines))
    decreases |lines|
  {
    if lines == [] {
    } else {
      var section, rest := FirstSection(t, lines);
      HeadersWritten(t, rest);
      HeadersOfSection(t, section, rest);
      SectionHeaders(t, section, Rewrite(t, rest));
      if t.IsHeader(section[0]) {
        WrittenCons(t, section[0], Headers(t, rest));
      } else {
        assert [] + Headers(t, rest) == Headers(t, rest);
      }
    }
  }

  lemma {:induction false} WrittenCons(t: Template, h: string, hs: seq<string>)
    requires t.project != [] && t.urls != [] && |t.scripts| == 3 && t.mypy != [] && t.coverage != []
    ensures WrittenAll(t, [h] + hs) == WrittenHeaders(t, h) + WrittenAll(t, hs)
  {
    assert ([h] + hs)[1..] == hs;
  }

  /** The number of scripts headers among some headers. */
  function ScriptsCount(t: Template, headers: seq<string>): nat {
    if headers == [] then 0
    else (if t.header(headers[0]) == Scripts then 1 else 0) + ScriptsCount(t, headers[1..])
  }

  lemma {:induction false} ScriptsCounted(t: Template, lines: seq<string>)
    ensures ScriptsCount(t, Headers(t, lines)) > 0 <==> HasScripts(t, lines)
    decreases |lines|
  {
    if lines == [] {
    } else {
      ScriptsCounted(t, lines[1..]);
      FewerScripts(t, lines[..1], lines[1..]);
      assert lines == lines[..1] + lines[1..];
      if t.IsHeader(lines[0]) {
        assert Headers(t, lines)[1..] == Headers(t, lines[1..]);
      } else {
        assert Headers(t, lines) == Headers(t, lines[1..]);
      }
      if HasScripts(t, lines) && t.header(lines[0]) != Scripts {
        var i :| 0 <= i < |lines| && t.header(lines[i]) == Scripts;
        assert lines[1..][i - 1] == lines[i];
      }
    }
  }

  lemma {:induction false} WrittenLength(t: Template, hs: seq<string>)
    requires t.project != [] && t.urls != [] && |t.scripts| == 3 && t.mypy != [] && t.coverage != []
    ensures |CanonicalAll(t, hs)| == |hs|
    ensures |WrittenAll(t, hs)| == |hs| + if ScriptNameOk(t) then 0 else ScriptsCount(t, hs)
    ensures ScriptNameOk(t) || ScriptsCount(t, hs) == 0 ==> WrittenAll(t, hs) == CanonicalAll(t, hs)
  {
    if hs == [] {
    } else {
      WrittenLength(t, hs[1..]);
    }
  }

  /**
   The headers of the output are those of the input, in order and with only managed ones reworded,
   exactly when the script line is no header or the file has no scripts section.
   */
  lemma {:induction false} HeadersPreserved(t: Template, lines: seq<string>)
    requires WellFormed(t)
    ensures Headers(t, Rewrite(t, lines)) == CanonicalAll(t, Headers(t, lines)) <==>
            ScriptNameOk(t) || !HasScripts(t, lines)
  {
    HeadersWritten(t, lines);
    ScriptsCounted(t, lines);
    WrittenLength(t, Headers(t, lines));
  }

  // ---------------------------------------------------------------- kept lines

  /** How the lines below a header are treated. */
  datatype Mode = Copying | Skipping | ToDependencies | Keys

  function ModeOf(h: Header): Mode {
    match h
    case Project => ToDependencies
    case Coverage => Keys
    case Urls => Skipping
    case Scripts => Skipping
    case Mypy => Skipping
    case _ => Copying
  }

  /**
   The lines of a file that are nobody's but its author's, told line by line: everything but
   managed headers and what is managed below them.
   */
  function Kept(t: Template, lines: seq<string>, m: Mode): seq<string> {
    if lines == [] then []
    else
      var line, h := lines[0], t.header(lines[0]);
      if !h.NotHeader? then
        (if h.Unmanaged? then [line] else []) + Kept(t, lines[1..], ModeOf(h))
      else
        match m
        case Copying => [line] + Kept(t, lines[1..], Copying)
        case Skipping => Kept(t, lines[1..], Skipping)
        case ToDependencies =>
          if t.dependencies(line) then [line] + Kept(t, lines[1..], Copying)
          else Kept(t, lines[1..], ToDependencies)
        case Keys => (if t.coverageKey(line) then [] else [line]) + Kept(t, lines[1..], Keys)
  }

  function KeptBody(t: Template, body: seq<string>, m: Mode): seq<string> {
    match m
    case Copying => body
    case Skipping => []
    case ToDependencies => FromDependencies(t, body)
    case Keys => WithoutCoverageKeys(t, body)
  }

  lemma {:induction false} KeptBodyOf(t: Template, body: seq<string>, rest: seq<string>, m: Mode)
    requires Plain(t, body) && AtHeader(t, rest)
    ensures Kept(t, body + rest, m) == KeptBody(t, body, m) + Kept(t, rest, Copying)
    decreases |body|
  {
    var after := Kept(t, rest, Copying);
    if body == [] {
      assert body + rest == rest;
      assert KeptBody(t, body, m) + after == after;
    } else {
      var more := body[1..];
      assert (body + rest)[0] == body[0] && (body + rest)[1..] == more + rest;
      var next := if m == ToDependencies && t.dependencies(body[0]) then Copying else m;
      KeptBodyOf(t, more, rest, next);
      if next == Copying {
        assert [body[0]] + more == body;
        Regroup([body[0]], more, after);
      } else if m == Keys && !t.coverageKey(body[0]) {
        Regroup([body[0]], WithoutCoverageKeys(t, more), after);
      }
    }
  }

  function KeptHeader(t: Template, line: string): seq<string> {
    if t.header(line).Unmanaged? || t.header(line).NotHeader? then [line] else []
  }

  lemma {:induction false} KeptSection(t: Template, section: seq<string>, rest: seq<string>)
    requires section != [] && Plain(t, section[1..]) && AtHeader(t, rest)
    ensures Kept(t, section + rest, Copying) ==
            KeptHeader(t, section[0]) + (KeptBody(t, section[1..], ModeOf(t.header(section[0]))) + Kept(t, rest, Copying))
  {
    assert (section + rest)[0] == section[0] && (section + rest)[1..] == section[1..] + rest;
    KeptBodyOf(t, section[1..], rest, ModeOf(t.header(section[0])));
  }

  /** What a rewritten section keeps is what the section kept. */
  lemma {:induction false} KeptTwice(t: Template, section: seq<string>)
    requires WellFormed(t) && Stable(t, section)
    ensures var out := RewriteSection(t, section);
      && out != []
      && KeptHeader(t, out[0]) == KeptHeader(t, section[0])
      && KeptBody(t, out[1..], ModeOf(t.header(out[0]))) ==
         KeptBody(t, section[1..], ModeOf(t.header(section[0])))
  {
    RewrittenSection(t, section);
    var body := section[1..];
    match t.header(section[0])
    case Project =>
      assert (t.project + FromDependencies(t, body))[1..] == t.project[1..] + FromDependencies(t, body);
      DependenciesAfter(t, t.project[1..], body);
    case Coverage =>
      assert (t.coverage + WithoutCoverageKeys(t, body))[1..] == t.coverage[1..] + WithoutCoverageKeys(t, body);
      KeysAfter(t, t.coverage[1..], body);
    case _ =>
  }

  /** The lines that the script block leaves outside the managed text, if its line looks like a header. */
  function Stray(t: Template): seq<string>
    requires |t.scripts| == 3
  {
    if ScriptNameOk(t) then []
    else KeptHeader(t, t.scripts[1]) + KeptBody(t, [t.scripts[2]], ModeOf(t.header(t.scripts[1])))
  }

  lemma {:induction false} KeptScripts(t: Template, rest: seq<string>)
    requires WellFormed(t) && !ScriptNameOk(t) && AtHeader(t, rest)
    ensures Kept(t, t.scripts + rest, Copying) == Stray(t) + Kept(t, rest, Copying)
  {
    var tail := t.scripts[1..] + rest;
    assert (t.scripts + rest)[0] == t.scripts[0] && (t.scripts + rest)[1..] == tail;
    assert t.scripts[1..][1..] == [t.scripts[2]];
    KeptSection(t, t.scripts[1..], rest);
    assert Kept(t, tail, Skipping) == Kept(t, tail, Copying);
    Regroup(KeptHeader(t, t.scripts[1]), KeptBody(t, [t.scripts[2]], ModeOf(t.header(t.scripts[1]))),
            Kept(t, rest, Copying));
  }

  /** One section: what it kept, then the stray lines if it is a scripts section. */
  lemma {:induction false} KeptOfSection(t: Template, section: seq<string>, rest: seq<string>, out: seq<string>)
    returns (kept: seq<string>, added: seq<string>)
    requires WellFormed(t) && section != [] && Plain(t, section[1..]) && AtHeader(t, rest) && AtHeader(t, out)
    ensures added == if t.header(section[0]) == Scripts then Stray(t) else []
    ensures Kept(t, section + rest, Copying) == kept + Kept(t, rest, Copying)
    ensures Kept(t, RewriteSection(t, section) + out, Copying) == kept + (added + Kept(t, out, Copying))
  {
    var head, body := KeptHeader(t, section[0]), KeptBody(t, section[1..], ModeOf(t.header(section[0])));
    kept, added := head + body, if t.header(section[0]) == Scripts then Stray(t) else [];
    KeptSection(t, section, rest);
    Regroup(head, body, Kept(t, rest, Copying));
    if t.header(section[0]) == Scripts && !ScriptNameOk(t) {
      KeptScripts(t, out);
      assert kept == [];
      assert [] + (added + Kept(t, out, Copying)) == added + Kept(t, out, Copying);
    } else {
      RewrittenSection(t, section);
      KeptSection(t, RewriteSection(t, section), out);
      KeptTwice(t, section);
      Regroup(head, body, Kept(t, out, Copying));
      assert added + Kept(t, out, Copying) == Kept(t, out, Copying);
    }
  }

  /** `a` is `b` with some lines left out. */
  predicate Within(a: seq<string>, b: seq<string>)
    decreases |b|
  {
    a == [] || (b != [] && ((a[0] == b[0] && Within(a[1..], b[1..])) || Within(a, b[1..])))
  }

  lemma {:induction false} WithinMore(a: seq<string>, added: seq<string>, b: seq<string>)
    requires Within(a, b)
    ensures Within(a, added + b)
    decreases |added|
  {
    if added == [] {
      assert added + b == b;
    } else {
      WithinMore(a, added[1..], b);
      assert (added + b)[1..] == added[1..] + b;
    }
  }

  lemma {:induction false} WithinPrefixed(kept: seq<string>, a: seq<string>, b: seq<string>)
    requires Within(a, b)
    ensures Within(kept + a, kept + b)
    decreases |kept|
  {
    if kept == [] {
      assert kept + a == a && kept + b == b;
    } else {
      WithinPrefixed(kept[1..], a, b);
      assert (kept + a)[1..] == kept[1..] + a && (kept + b)[1..] == kept[1..] + b;
      assert (kept + a)[0] == kept[0] == (kept + b)[0];
    }
  }

  /** What is kept of a file before and after: all of it survives, and more comes in if `stray`. */
  ghost predicate Grown(before: seq<string>, after: seq<string>, stray: bool) {
    && Within(before, after)
    && (!stray ==> after == before)
    && |after| >= |before|
    && (stray ==> |after| > |before|)
  }

  lemma {:induction false} GrownAppend(kept: seq<string>, added: seq<string>, before: seq<string>, after: seq<string>, stray: bool)
    requires Grown(before, after, stray)
    ensures Grown(kept + before, kept + (added + after), stray || added != [])
  {
    WithinMore(before, added, after);
    WithinPrefixed(kept, before, added + after);
    if added == [] {
      assert added + after == after;
    }
  }

  lemma {:induction false} KeptCompared(t: Template, lines: seq<string>)
    requires WellFormed(t)
    ensures Grown(Kept(t, lines, Copying), Kept(t, Rewrite(t, lines), Copying),
                  Stray(t) != [] && HasScripts(t, lines))
    decreases |lines|
  {
    if lines == [] {
    } else {
      var section, rest := FirstSection(t, lines);
      var out := Rewrite(t, rest);
      KeptCompared(t, rest);
      RewriteAtHeader(t, rest);
      var kept, added := KeptOfSection(t, section, rest, out);
      GrownAppend(kept, added, Kept(t, rest, Copying), Kept(t, out, Copying), Stray(t) != [] && HasScripts(t, rest));
      FewerScripts(t, section, rest);
      if HasScripts(t, lines) && t.header(section[0]) != Scripts {
        ScriptsInRest(t, section, rest);
      }
    }
  }

  /**
   Every line outside the managed text is in the output, unchanged and in order, and nothing is
   added, exactly when the script block leaves no stray line or the file has no scripts section.  In
   every other file no line is lost either, but some are added.
   */
  lemma {:induction false} KeptPreserved(t: Template, lines: seq<string>)
    requires WellFormed(t)
    ensures Kept(t, Rewrite(t, lines), Copying) == Kept(t, lines, Copying) <==>
            Stray(t) == [] || !HasScripts(t, lines)
    ensures Within(Kept(t, lines, Copying), Kept(t, Rewrite(t, lines), Copying))
  {
    KeptCompared(t, lines);
  }
}
