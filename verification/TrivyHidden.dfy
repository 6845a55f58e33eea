/**
 What a comment in the first column does to a .trivyignore.yaml file.  The reader takes it for a
 top-level key, so whatever the lines below it say is lost, up to the next top-level line.
 */
module TrivyHidden {
  import opened Basics
  import opened TrivyLayout
  import opened Trivyignore

  /** The reader is listing purls only below an entry. */
  predicate Sound(r: Reader) {
    r.inPurls ==> r.inVulnerabilities && r.entries != []
  }

  lemma {:induction false} SoundAlong(f: Classifier, r: Reader, lines: seq<string>)
    requires Sound(r)
    ensures Sound(Read(f, r, lines))
    decreases |lines|
  {
    if lines == [] {
    } else {
      SoundAlong(f, Step(r, f(lines[0])), lines[1..]);
    }
  }

  /** The last line is read last. */
  lemma {:induction false} ReadLast(f: Classifier, r: Reader, lines: seq<string>)
    requires lines != []
    ensures var n := |lines| - 1; Read(f, r, lines) == Step(Read(f, r, lines[..n]), f(lines[n]))
  {
    var n := |lines| - 1;
    assert lines == lines[..n] + [lines[n]];
    ReadAppend(f, r, lines[..n], [lines[n]]);
    ReadOne(f, Read(f, r, lines[..n]), lines[n]);
  }

  // ---------------------------------------------------------------- what lines say

  ghost predicate NoTopLevel(f: Classifier, lines: seq<string>) {
    forall i :: 0 <= i < |lines| ==> !f(lines[i]).TopLevel?
  }

  /** How many lines come before the first top-level line. */
  function Until(f: Classifier, lines: seq<string>): nat
    ensures Until(f, lines) <= |lines|
    ensures NoTopLevel(f, lines[..Until(f, lines)])
    ensures Until(f, lines) < |lines| ==> f(lines[Until(f, lines)]).TopLevel?
  {
    if lines == [] || f(lines[0]).TopLevel? then 0 else 1 + Until(f, lines[1..])
  }

  function IdCount(f: Classifier, lines: seq<string>): nat {
    if lines == [] then 0
    else IdCount(f, lines[..|lines| - 1]) + if f(lines[|lines| - 1]).IdLine? then 1 else 0
  }

  /** Whether a list of purls is open after a line, given what came before it. */
  predicate OpenAfter(k: LineKind, below: bool, listing: bool) {
    match k
    case PurlsKey => below
    case PurlLine(_) => listing
    case Comment => listing
    case Blank => listing
    case _ => false
  }

  /**
   The lines end inside a list of purls: the last of them that is no purl, comment or blank line is a
   purls key with an entry above it.  `below` and `listing` say how it is before the first line.
   */
  predicate Open(f: Classifier, below: bool, listing: bool, lines: seq<string>) {
    if lines == [] then listing
    else
      var n := |lines| - 1;
      OpenAfter(f(lines[n]), below || IdCount(f, lines[..n]) > 0, Open(f, below, listing, lines[..n]))
  }

  /** A purl line inside a list of purls. */
  predicate IsListed(f: Classifier, below: bool, listing: bool, lines: seq<string>, j: nat)
    requires j < |lines|
  {
    f(lines[j]).PurlLine? && Open(f, below, listing, lines[..j])
  }

  function ListedCount(f: Classifier, below: bool, listing: bool, lines: seq<string>): nat {
    if lines == [] then 0
    else
      var n := |lines| - 1;
      ListedCount(f, below, listing, lines[..n]) + if IsListed(f, below, listing, lines, n) then 1 else 0
  }

  /** Line `j` of text read within the section says something: it starts an entry or lists a purl. */
  predicate Says(f: Classifier, r: Reader, lines: seq<string>, j: nat)
    requires j < |lines|
  {
    f(lines[j]).IdLine? || IsListed(f, r.entries != [], r.inPurls, lines, j)
  }

  ghost predicate SomethingSaid(f: Classifier, r: Reader, lines: seq<string>) {
    exists j :: 0 <= j < |lines| && Says(f, r, lines, j)
  }

  function PurlCount(entries: seq<Entry>): nat {
    if entries == [] then 0 else PurlCount(entries[..|entries| - 1]) + |entries[|entries| - 1].purls|
  }

  lemma {:induction false} PurlCountEntry(entries: seq<Entry>, e: Entry)
    ensures PurlCount(entries + [e]) == PurlCount(entries) + |e.purls|
  {
    assert (entries + [e])[..|entries|] == entries;
  }

  lemma {:induction false} PurlCountAdd(entries: seq<Entry>, purl: string)
    requires entries != []
    ensures PurlCount(AddPurl(entries, purl)) == PurlCount(entries) + 1
  {
    var n := |entries| - 1;
    assert AddPurl(entries, purl)[..n] == entries[..n];
  }

  lemma {:induction false} StepPurls(r: Reader, k: LineKind)
    ensures PurlCount(Step(r, k).entries) == PurlCount(r.entries) +
      if r.inVulnerabilities && r.inPurls && r.entries != [] && k.PurlLine? then 1 else 0
  {
    if k.IdLine? {
      PurlCountEntry(r.entries, Entry(k.id, []));
    } else if r.entries != [] && k.PurlLine? {
      PurlCountAdd(r.entries, k.purl);
    }
  }

  lemma {:induction false} StepInSection(t: Reader, k: LineKind)
    requires t.inVulnerabilities && Sound(t) && !k.TopLevel?
    ensures var u := Step(t, k);
      && u.inVulnerabilities
      && u.inPurls == OpenAfter(k, t.entries != [], t.inPurls)
      && |u.entries| == |t.entries| + (if k.IdLine? then 1 else 0)
      && PurlCount(u.entries) == PurlCount(t.entries) + (if k.PurlLine? && t.inPurls then 1 else 0)
  {
    StepPurls(t, k);
  }

  /** A section without top-level lines adds an entry per id line and a purl per listed purl line. */
  lemma {:induction false} SectionCounts(f: Classifier, r: Reader, lines: seq<string>)
    requires r.inVulnerabilities && Sound(r) && NoTopLevel(f, lines)
    ensures var t := Read(f, r, lines);
      && t.inVulnerabilities
      && t.inPurls == Open(f, r.entries != [], r.inPurls, lines)
      && |t.entries| == |r.entries| + IdCount(f, lines)
      && PurlCount(t.entries) == PurlCount(r.entries) + ListedCount(f, r.entries != [], r.inPurls, lines)
    decreases |lines|
  {
    if lines == [] {
    } else {
      var n := |lines| - 1;
      SectionCounts(f, r, lines[..n]);
      ReadLast(f, r, lines);
      SoundAlong(f, r, lines[..n]);
      StepInSection(Read(f, r, lines[..n]), f(lines[n]));
    }
  }

  /** When no line says anything, reading changes no entry. */
  lemma {:induction false} SilentLines(f: Classifier, r: Reader, lines: seq<string>)
    requires r.inVulnerabilities && Sound(r) && NoTopLevel(f, lines)
    requires !SomethingSaid(f, r, lines)
    ensures Read(f, r, lines).entries == r.entries
    decreases |lines|
  {
    if lines == [] {
    } else {
      var n := |lines| - 1;
      var head := lines[..n];
      forall j | 0 <= j < n ensures !Says(f, r, head, j) {
        assert head[..j] == lines[..j] && !Says(f, r, lines, j);
      }
      SilentLines(f, r, head);
      SectionCounts(f, r, head);
      ReadLast(f, r, lines);
      assert !Says(f, r, lines, n);
    }
  }

  lemma {:induction false} SaysCounts(f: Classifier, below: bool, listing: bool, lines: seq<string>, j: nat)
    requires j < |lines|
    ensures f(lines[j]).IdLine? ==> IdCount(f, lines) > 0
    ensures IsListed(f, below, listing, lines, j) ==> ListedCount(f, below, listing, lines) > 0
    decreases |lines|
  {
    var n := |lines| - 1;
    if j < n {
      assert lines[..n][j] == lines[j] && lines[..n][..j] == lines[..j];
      SaysCounts(f, below, listing, lines[..n], j);
    }
  }

  // ---------------------------------------------------------------- the rest of the file

  /** How many entries are added depends on the section flag alone. */
  lemma {:induction false} SameEntryCount(f: Classifier, r: Reader, s: Reader, lines: seq<string>)
    requires r.inVulnerabilities == s.inVulnerabilities
    ensures |Read(f, r, lines).entries| - |r.entries| == |Read(f, s, lines).entries| - |s.entries|
    decreases |lines|
  {
    if lines == [] {
    } else {
      SameEntryCount(f, Step(r, f(lines[0])), Step(s, f(lines[0])), lines[1..]);
    }
  }

  /** How many purls are added depends on the flags and on whether there is an entry yet. */
  lemma {:induction false} SamePurlCount(f: Classifier, r: Reader, s: Reader, lines: seq<string>)
    requires r.inVulnerabilities == s.inVulnerabilities && r.inPurls == s.inPurls
    requires r.entries == [] <==> s.entries == []
    ensures PurlCount(Read(f, r, lines).entries) - PurlCount(r.entries) ==
            PurlCount(Read(f, s, lines).entries) - PurlCount(s.entries)
    decreases |lines|
  {
    if lines == [] {
    } else {
      var k := f(lines[0]);
      StepPurls(r, k);
      StepPurls(s, k);
      SamePurlCount(f, Step(r, k), Step(s, k), lines[1..]);
    }
  }

  /** A top-level line makes the reader forget everything but its entries. */
  lemma {:induction false} Resumed(f: Classifier, r: Reader, s: Reader, lines: seq<string>)
    requires lines != [] ==> f(lines[0]).TopLevel?
    ensures r.entries == s.entries ==> Read(f, r, lines).entries == Read(f, s, lines).entries
    ensures |Read(f, r, lines).entries| - |r.entries| == |Read(f, s, lines).entries| - |s.entries|
    ensures (r.entries == [] <==> s.entries == []) ==>
      PurlCount(Read(f, r, lines).entries) - PurlCount(r.entries) ==
      PurlCount(Read(f, s, lines).entries) - PurlCount(s.entries)
  {
    if lines == [] {
    } else {
      var k := f(lines[0]);
      SameEntryCount(f, Step(r, k), Step(s, k), lines[1..]);
      if r.entries == [] <==> s.entries == [] {
        SamePurlCount(f, Step(r, k), Step(s, k), lines[1..]);
      }
    }
  }

  // ---------------------------------------------------------------- the loss

  /** The text read with and without the line, up to the next top-level line `d`. */
  lemma {:induction false} HiddenSplit(f: Classifier, r: Reader, line: string, c: seq<string>, d: seq<string>)
    requires f(line) == TopLevel(false) && NoTopLevel(f, c)
    ensures Read(f, r, [line] + (c + d)) == Read(f, r.(inVulnerabilities := false, inPurls := false), d)
    ensures Read(f, r, c + d) == Read(f, Read(f, r, c), d)
  {
    var s := r.(inVulnerabilities := false, inPurls := false);
    ReadAppend(f, r, [line], c + d);
    ReadOne(f, r, line);
    ReadAppend(f, s, c, d);
    OutsideIgnored(f, s, c);
    ReadAppend(f, r, c, d);
  }

  lemma {:induction false} LostIff(f: Classifier, r: Reader, line: string, c: seq<string>, d: seq<string>)
    requires Sound(r) && f(line) == TopLevel(false) && NoTopLevel(f, c) && (d != [] ==> f(d[0]).TopLevel?)
    ensures Read(f, r, [line] + (c + d)).entries != Read(f, r, c + d).entries <==>
            r.inVulnerabilities && SomethingSaid(f, r, c)
    ensures |Read(f, r, c + d).entries| ==
            |Read(f, r, [line] + (c + d)).entries| + (if r.inVulnerabilities then IdCount(f, c) else 0)
    ensures r.inVulnerabilities && (r.entries != [] || IdCount(f, c) == 0) ==>
      PurlCount(Read(f, r, c + d).entries) ==
      PurlCount(Read(f, r, [line] + (c + d)).entries) + ListedCount(f, r.entries != [], r.inPurls, c)
  {
    var s := r.(inVulnerabilities := false, inPurls := false);
    var t := Read(f, r, c);
    HiddenSplit(f, r, line, c, d);
    Resumed(f, t, s, d);
    if !r.inVulnerabilities {
      OutsideIgnored(f, r, c);
    } else {
      SectionCounts(f, r, c);
      if SomethingSaid(f, r, c) {
        var j :| 0 <= j < |c| && Says(f, r, c, j);
        SaysCounts(f, r.entries != [], r.inPurls, c, j);
      } else {
        SilentLines(f, r, c);
      }
    }
  }

  /**
   In any text at all, a first-column comment put before `b` changes the entries read if and only if
   it stands in the vulnerabilities section and a line of `b` before the next top-level line starts an
   entry or lists a purl.  It loses exactly the entries that those lines start, and, unless they start
   the first entry of the file, exactly the purls that those lines list.
   */
  lemma {:induction false} TopLevelLineHides(f: Classifier, a: seq<string>, line: string, b: seq<string>)
    requires f(line) == TopLevel(false)
    ensures var r, c := Read(f, START, a), b[..Until(f, b)];
      && (Read(f, START, a + ([line] + b)).entries != Read(f, START, a + b).entries <==>
            r.inVulnerabilities && SomethingSaid(f, r, c))
      && |Read(f, START, a + b).entries| ==
         |Read(f, START, a + ([line] + b)).entries| + (if r.inVulnerabilities then IdCount(f, c) else 0)
      && (r.inVulnerabilities && (r.entries != [] || IdCount(f, c) == 0) ==>
            PurlCount(Read(f, START, a + b).entries) ==
            PurlCount(Read(f, START, a + ([line] + b)).entries) +
              ListedCount(f, r.entries != [], r.inPurls, c))
  {
    var r, c, d := Read(f, START, a), b[..Until(f, b)], b[Until(f, b)..];
    assert b == c + d;
    ReadAppend(f, START, a, [line] + b);
    ReadAppend(f, START, a, b);
    SoundAlong(f, START, a);
    LostIff(f, r, line, c, d);
  }

  /** The least text that loses an entry: a comment between the section's key and its only entry. */
  lemma {:induction false} HiddenEntry(tail: string, comment: string, indent: string, gap: string, gap2: string, id: string)
    requires Spaces(tail) && "#" <= comment && Solid(id)
    requires Spaces(indent) && indent != "" && Spaces(gap) && Spaces(gap2)
    ensures Read(Classify, START, [SectionKey(tail), comment, IdText(indent, gap, gap2, id, tail)]).entries == []
    ensures Read(Classify, START, [SectionKey(tail), IdText(indent, gap, gap2, id, tail)]).entries == [Entry(id, [])]
  {
    SectionKeyKind(tail);
    IdTextKind(indent, gap, gap2, id, tail);
    ColumnZeroCommentKind(comment);
    OneHidden(Classify, SectionKey(tail), comment, IdText(indent, gap, gap2, id, tail), id);
  }

  lemma {:induction false} OneHidden(f: Classifier, key: string, comment: string, line: string, id: string)
    requires f(key) == TopLevel(true) && f(comment) == TopLevel(false) && f(line) == IdLine(id)
    ensures Read(f, START, [key, comment, line]).entries == []
    ensures Read(f, START, [key, line]).entries == [Entry(id, [])]
  {
    ThreeLines(f, key, comment, line);
  }

  lemma {:induction false} ThreeLines(f: Classifier, a: string, b: string, c: string)
    ensures Read(f, START, [a, b, c]) == Step(Step(Step(START, f(a)), f(b)), f(c))
    ensures Read(f, START, [a, c]) == Step(Step(START, f(a)), f(c))
  {
    assert [a, b, c][1..] == [b, c] && [b, c][1..] == [c] && [c][1..] == [] && [a, c][1..] == [c];
    assert Read(f, Step(Step(START, f(a)), f(b)), [c]) == Step(Step(Step(START, f(a)), f(b)), f(c));
    assert Read(f, Step(START, f(a)), [b, c]) == Read(f, Step(Step(START, f(a)), f(b)), [c]);
    assert Read(f, Step(START, f(a)), [c]) == Step(Step(START, f(a)), f(c));
  }
}
