/**
 The line reader for .trivyignore.yaml as a machine over kinds of lines.  How a line's kind is
 told from its text is a parameter here.
 */
module TrivyLayout {
  import opened Basics

  datatype LineKind =
    | Blank
    | TopLevel(vulnerabilities: bool)
    | IdLine(id: string)
    | PurlsKey
    | PurlLine(purl: string)
    | Comment
    | Other

  type Classifier = string -> LineKind

  datatype Entry = Entry(id: string, purls: seq<string>)

  datatype Reader = Reader(entries: seq<Entry>, inVulnerabilities: bool, inPurls: bool)

  const START := Reader([], false, false)

  /** entries[-1][1].append(purl) */
  function AddPurl(entries: seq<Entry>, purl: string): seq<Entry>
    requires entries != []
  {
    var n := |entries| - 1;
    entries[n := Entry(entries[n].id, entries[n].purls + [purl])]
  }

  function Step(r: Reader, k: LineKind): Reader {
    if k == Blank then r
    else if k.TopLevel? then r.(inVulnerabilities := k.vulnerabilities, inPurls := false)
    else if !r.inVulnerabilities then r
    else if k.IdLine? then r.(entries := r.entries + [Entry(k.id, [])], inPurls := false)
    else if r.entries != [] && k == PurlsKey then r.(inPurls := true)
    else if r.entries != [] && r.inPurls && k.PurlLine? then r.(entries := AddPurl(r.entries, k.purl))
    else if k != Comment then r.(inPurls := false)
    else r
  }

  function Read(f: Classifier, r: Reader, lines: seq<string>): Reader
    decreases |lines|
  {
    if lines == [] then r else Read(f, Step(r, f(lines[0])), lines[1..])
  }

  lemma {:induction false} ReadAppend(f: Classifier, r: Reader, a: seq<string>, b: seq<string>)
    ensures Read(f, r, a + b) == Read(f, Read(f, r, a), b)
    decreases |a|
  {
    if a == [] {
      assert a + b == b;
    } else {
      assert (a + b)[1..] == a[1..] + b;
      ReadAppend(f, Step(r, f(a[0])), a[1..], b);
    }
  }

  /** The loop over the lines, with its two flags and its list of entries. */
  method LoadEntries(f: Classifier, lines: seq<string>) returns (entries: seq<Entry>)
    ensures entries == Read(f, START, lines).entries
  {
    entries := [];
    var inVulnerabilities, inPurls := false, false;
    var i := 0;
    while i < |lines|
      invariant 0 <= i <= |lines|
      invariant Read(f, Reader(entries, inVulnerabilities, inPurls), lines[i..]) == Read(f, START, lines)
    {
      var k := f(lines[i]);
      assert lines[i..][1..] == lines[i + 1..];
      i := i + 1;
      if k == Blank { continue; }
      if k.TopLevel? {
        inVulnerabilities, inPurls := k.vulnerabilities, false;
        continue;
      }
      if !inVulnerabilities { continue; }
      if k.IdLine? {
        entries, inPurls := entries + [Entry(k.id, [])], false;
      } else if entries != [] && k == PurlsKey {
        inPurls := true;
      } else if entries != [] && inPurls && k.PurlLine? {
        entries := AddPurl(entries, k.purl);
      } else if k != Comment {
        inPurls := false;
      }
    }
  }

  // ---------------------------------------------------------------- documents

  /** Lines that belong to an entry but say nothing about its id or purls. */
  predicate Neutral(k: LineKind) {
    k == Blank || k == Comment || k == Other || k.PurlLine?
  }

  ghost predicate AllNeutral(f: Classifier, lines: seq<string>) {
    forall i :: 0 <= i < |lines| ==> Neutral(f(lines[i]))
  }

  /** Below a purls key: the purls, with blank lines and comments anywhere between them. */
  predicate IsItem(k: LineKind) {
    k.PurlLine? || k == Comment || k == Blank
  }

  /** One entry as written: its id line, other keys, a purls list if any, and other keys again. */
  datatype EntryDoc = EntryDoc(
    idLine: string,
    before: seq<string>,
    key: Option<string>,
    items: seq<string>,
    after: seq<string>)

  /** A top-level section of the file. */
  datatype Section =
    | OtherSection(header: string, body: seq<string>)
    | Vulnerabilities(header: string, lead: seq<string>, entries: seq<EntryDoc>)

  ghost predicate ValidEntry(f: Classifier, e: EntryDoc) {
    && f(e.idLine).IdLine?
    && AllNeutral(f, e.before)
    && (e.key.None? ==> e.items == [] && e.after == [])
    && (e.key.Some? ==> f(e.key.value) == PurlsKey)
    && (forall i :: 0 <= i < |e.items| ==> IsItem(f(e.items[i])))
    && AllNeutral(f, e.after)
    && (e.after != [] ==> f(e.after[0]) == Other)
  }

  ghost predicate ValidSection(f: Classifier, s: Section) {
    match s
    case OtherSection(header, body) =>
      && f(header) == TopLevel(false)
      && forall i :: 0 <= i < |body| ==> !f(body[i]).TopLevel?
    case Vulnerabilities(header, lead, entries) =>
      && f(header) == TopLevel(true)
      && AllNeutral(f, lead)
      && forall i :: 0 <= i < |entries| ==> ValidEntry(f, entries[i])
  }

  function EntryLines(e: EntryDoc): seq<string> {
    [e.idLine] + (e.before + ((if e.key.Some? then [e.key.value] else []) + (e.items + e.after)))
  }

  function EntriesLines(es: seq<EntryDoc>): seq<string> {
    if es == [] then [] else EntryLines(es[0]) + EntriesLines(es[1..])
  }

  function SectionLines(s: Section): seq<string> {
    match s
    case OtherSection(header, body) => [header] + body
    case Vulnerabilities(header, lead, entries) => [header] + (lead + EntriesLines(entries))
  }

  function Render(doc: seq<Section>): seq<string> {
    if doc == [] then [] else SectionLines(doc[0]) + Render(doc[1..])
  }

  // ---------------------------------------------------------------- what a document says

  function Purls(f: Classifier, items: seq<string>): seq<string> {
    if items == [] then []
    else (if f(items[0]).PurlLine? then [f(items[0]).purl] else []) + Purls(f, items[1..])
  }

  function IdOf(k: LineKind): string {
    if k.IdLine? then k.id else ""
  }

  function EntryOf(f: Classifier, e: EntryDoc): Entry {
    Entry(IdOf(f(e.idLine)), Purls(f, e.items))
  }

  function EntriesOf(f: Classifier, es: seq<EntryDoc>): seq<Entry> {
    if es == [] then [] else [EntryOf(f, es[0])] + EntriesOf(f, es[1..])
  }

  function SectionMeaning(f: Classifier, s: Section): seq<Entry> {
    if s.Vulnerabilities? then EntriesOf(f, s.entries) else []
  }

  function Meaning(f: Classifier, doc: seq<Section>): seq<Entry> {
    if doc == [] then [] else SectionMeaning(f, doc[0]) + Meaning(f, doc[1..])
  }

  // ---------------------------------------------------------------- reading undoes rendering

  lemma {:induction false} NeutralIgnored(f: Classifier, r: Reader, lines: seq<string>)
    requires AllNeutral(f, lines) && !r.inPurls
    ensures Read(f, r, lines) == r
  {
    if lines == [] {
    } else {
      assert Neutral(f(lines[0]));
      NeutralIgnored(f, r, lines[1..]);
    }
  }

  lemma {:induction false} ItemsCollected(f: Classifier, prior: seq<Entry>, id: string, got: seq<string>, items: seq<string>)
    requires forall i :: 0 <= i < |items| ==> IsItem(f(items[i]))
    ensures Read(f, Reader(prior + [Entry(id, got)], true, true), items) ==
            Reader(prior + [Entry(id, got + Purls(f, items))], true, true)
    decreases |items|
  {
    var r := Reader(prior + [Entry(id, got)], true, true);
    if items == [] {
      assert got + Purls(f, items) == got;
    } else {
      var k, more := f(items[0]), items[1..];
      assert IsItem(k);
      if k.PurlLine? {
        assert AddPurl(r.entries, k.purl) == prior + [Entry(id, got + [k.purl])];
        ItemsCollected(f, prior, id, got + [k.purl], more);
        assert got + [k.purl] + Purls(f, more) == got + Purls(f, items);
      } else {
        ItemsCollected(f, prior, id, got, more);
        assert [] + Purls(f, more) == Purls(f, more);
      }
    }
  }

  /** Reading one entry adds exactly that entry. */
  lemma {:induction false} EntryRead(f: Classifier, prior: seq<Entry>, p: bool, e: EntryDoc)
    requires ValidEntry(f, e)
    ensures var t := Read(f, Reader(prior, true, p), EntryLines(e));
      t.inVulnerabilities && t.entries == prior + [EntryOf(f, e)]
  {
    var id := f(e.idLine).id;
    var started := Reader(prior + [Entry(id, [])], true, false);
    var keyed := if e.key.Some? then [e.key.value] else [];
    ReadOne(f, Reader(prior, true, p), e.idLine);
    ReadAppend(f, Reader(prior, true, p), [e.idLine], e.before + (keyed + (e.items + e.after)));
    ReadAppend(f, started, e.before, keyed + (e.items + e.after));
    NeutralIgnored(f, started, e.before);
    ReadAppend(f, started, keyed, e.items + e.after);
    if e.key.Some? {
      ReadOne(f, started, e.key.value);
      var listing := started.(inPurls := true);
      ReadAppend(f, listing, e.items, e.after);
      ItemsCollected(f, prior, id, [], e.items);
      assert [] + Purls(f, e.items) == Purls(f, e.items);
      var listed := Reader(prior + [EntryOf(f, e)], true, true);
      AfterRead(f, listed, e.after);
    } else {
      assert keyed + (e.items + e.after) == [];
      assert EntryOf(f, e) == Entry(id, []);
    }
  }

  lemma {:induction false} ReadOne(f: Classifier, r: Reader, line: string)
    ensures Read(f, r, [line]) == Step(r, f(line))
  {
    assert [line][1..] == [];
  }

  lemma {:induction false} AfterRead(f: Classifier, r: Reader, after: seq<string>)
    requires r.inVulnerabilities && AllNeutral(f, after) && (after != [] ==> f(after[0]) == Other)
    ensures Read(f, r, after) == r.(inPurls := r.inPurls && after == [])
  {
    if after == [] {
    } else {
      NeutralIgnored(f, r.(inPurls := false), after[1..]);
    }
  }

  lemma {:induction false} Regroup(a: seq<Entry>, b: seq<Entry>, c: seq<Entry>)
    ensures a + b + c == a + (b + c)
  {
  }

  lemma {:induction false} EntriesRead(f: Classifier, prior: seq<Entry>, p: bool, es: seq<EntryDoc>)
    requires forall i :: 0 <= i < |es| ==> ValidEntry(f, es[i])
    ensures Read(f, Reader(prior, true, p), EntriesLines(es)).entries == prior + EntriesOf(f, es)
    decreases |es|
  {
    if es == [] {
      assert prior + EntriesOf(f, es) == prior;
    } else {
      var r, e, more := Reader(prior, true, p), es[0], es[1..];
      EntryRead(f, prior, p, e);
      ReadAppend(f, r, EntryLines(e), EntriesLines(more));
      EntriesRead(f, prior + [EntryOf(f, e)], Read(f, r, EntryLines(e)).inPurls, more);
      Regroup(prior, [EntryOf(f, e)], EntriesOf(f, more));
    }
  }

  /** Outside the vulnerabilities section nothing is read. */
  lemma {:induction false} OutsideIgnored(f: Classifier, r: Reader, lines: seq<string>)
    requires !r.inVulnerabilities && forall i :: 0 <= i < |lines| ==> !f(lines[i]).TopLevel?
    ensures Read(f, r, lines) == r
  {
    if lines == [] {
    } else {
      OutsideIgnored(f, r, lines[1..]);
    }
  }

  lemma {:induction false} SectionRead(f: Classifier, r: Reader, s: Section)
    requires ValidSection(f, s)
    ensures Read(f, r, SectionLines(s)).entries == r.entries + SectionMeaning(f, s)
  {
    ReadOne(f, r, s.header);
    match s
    case OtherSection(header, body) =>
      ReadAppend(f, r, [header], body);
      OutsideIgnored(f, Step(r, f(header)), body);
      assert r.entries + [] == r.entries;
    case Vulnerabilities(header, lead, entries) =>
      var inside := Reader(r.entries, true, false);
      ReadAppend(f, r, [header], lead + EntriesLines(entries));
      ReadAppend(f, inside, lead, EntriesLines(entries));
      NeutralIgnored(f, inside, lead);
      EntriesRead(f, r.entries, false, entries);
  }

  lemma {:induction false} DocRead(f: Classifier, r: Reader, doc: seq<Section>)
    requires forall i :: 0 <= i < |doc| ==> ValidSection(f, doc[i])
    ensures Read(f, r, Render(doc)).entries == r.entries + Meaning(f, doc)
    decreases |doc|
  {
    if doc == [] {
      assert r.entries + [] == r.entries;
    } else {
      ReadAppend(f, r, SectionLines(doc[0]), Render(doc[1..]));
      SectionRead(f, r, doc[0]);
      var next := Read(f, r, SectionLines(doc[0]));
      DocRead(f, next, doc[1..]);
      Regroup(r.entries, SectionMeaning(f, doc[0]), Meaning(f, doc[1..]));
    }
  }

  /** Loading a rendered document gives back exactly its entries, in order, with their purls. */
  lemma {:induction false} ReadRender(f: Classifier, doc: seq<Section>)
    requires forall i :: 0 <= i < |doc| ==> ValidSection(f, doc[i])
    ensures Read(f, START, Render(doc)).entries == Meaning(f, doc)
  {
    DocRead(f, START, doc);
    assert [] + Meaning(f, doc) == Meaning(f, doc);
  }

  // ---------------------------------------------------------------- comments

  /** In any text at all, a blank line or an indented comment can be put anywhere without effect. */
  lemma {:induction false} CommentsAreFree(f: Classifier, a: seq<string>, line: string, b: seq<string>)
    requires f(line) == Comment || f(line) == Blank
    ensures Read(f, START, a + ([line] + b)) == Read(f, START, a + b)
  {
    var r := Read(f, START, a);
    ReadAppend(f, START, a, [line] + b);
    ReadAppend(f, START, a, b);
    ReadAppend(f, r, [line], b);
    ReadOne(f, r, line);
  }
}
