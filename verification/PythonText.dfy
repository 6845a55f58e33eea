/** The pieces of Python's string behaviour that the scripts rely on. */
module PythonText {

  /** str.isspace on one character; the same characters as \s in a regular expression. */
  predicate IsSpace(c: char) {
    var n := c as int;
    || 0x09 <= n <= 0x0D || 0x1C <= n <= 0x20 || n == 0x85 || n == 0xA0 || n == 0x1680
    || 0x2000 <= n <= 0x200A || n == 0x2028 || n == 0x2029 || n == 0x202F || n == 0x205F || n == 0x3000
  }

  /** str.lstrip() */
  function LStrip(s: string): (r: string)
    ensures r != "" ==> !IsSpace(r[0])
    ensures |r| <= |s| && s[|s| - |r|..] == r
  {
    if s != "" && IsSpace(s[0]) then LStrip(s[1..]) else s
  }

  /** str.rstrip() */
  function RStrip(s: string): (r: string)
    ensures r <= s
    ensures r != "" ==> !IsSpace(r[|r| - 1])
  {
    if s != "" && IsSpace(s[|s| - 1]) then RStrip(s[..|s| - 1]) else s
  }

  /** str.strip() */
  function Strip(s: string): string {
    RStrip(LStrip(s))
  }

  /** str.startswith(prefix) is `prefix <= s` on sequences; this names it. */
  predicate StartsWith(s: string, prefix: string) {
    prefix <= s
  }

  /** Text that begins with a visible character keeps its beginning when stripped. */
  lemma {:induction false} StripKeepsPrefix(s: string, prefix: string)
    requires prefix != "" && prefix <= s
    requires !IsSpace(prefix[0]) && !IsSpace(prefix[|prefix| - 1])
    ensures prefix <= Strip(s)
    decreases |s|
  {
    RStripKeepsPrefix(s, prefix);
  }

  lemma {:induction false} RStripKeepsPrefix(s: string, prefix: string)
    requires prefix != "" && prefix <= s && !IsSpace(prefix[|prefix| - 1])
    ensures prefix <= RStrip(s)
    decreases |s|
  {
    if IsSpace(s[|s| - 1]) {
      assert prefix <= s[..|s| - 1];
      RStripKeepsPrefix(s[..|s| - 1], prefix);
    }
  }

  /** What rstrip takes off is white space. */
  lemma {:induction false} RStripRest(s: string, i: nat)
    requires |RStrip(s)| <= i < |s|
    ensures IsSpace(s[i])
    decreases |s|
  {
    if i < |s| - 1 {
      RStripRest(s[..|s| - 1], i);
    }
  }

  /** Text between white space, stripped. */
  lemma {:induction false} RStripOver(text: string, spaces: string)
    requires forall i :: 0 <= i < |spaces| ==> IsSpace(spaces[i])
    requires text != "" && !IsSpace(text[|text| - 1])
    ensures RStrip(text + spaces) == text
  {
    if spaces == "" {
      assert text + spaces == text;
    } else {
      var n := |spaces| - 1;
      assert (text + spaces)[..|text| + n] == text + spaces[..n];
      RStripOver(text, spaces[..n]);
    }
  }

  /** What lstrip takes off is white space. */
  lemma {:induction false} LStripRest(s: string, i: nat)
    requires i < |s| - |LStrip(s)|
    ensures IsSpace(s[i])
    decreases |s|
  {
    if i > 0 {
      LStripRest(s[1..], i - 1);
    }
  }

  lemma {:induction false} LStripOne(c: char, s: string)
    ensures LStrip([c] + s) == if IsSpace(c) then LStrip(s) else [c] + s
  {
    assert ([c] + s)[1..] == s;
  }

  lemma {:induction false} LStripSpaces(spaces: string, text: string)
    requires forall i :: 0 <= i < |spaces| ==> IsSpace(spaces[i])
    ensures LStrip(spaces + text) == LStrip(text)
  {
    if spaces == "" {
      assert spaces + text == text;
    } else {
      assert spaces + text == [spaces[0]] + (spaces[1..] + text);
      LStripOne(spaces[0], spaces[1..] + text);
      LStripSpaces(spaces[1..], text);
    }
  }

  lemma {:induction false} LStripFront(name: string, more: string)
    ensures LStrip(name + more) == if LStrip(name) == "" then LStrip(more) else LStrip(name) + more
  {
    if name == "" {
      assert name + more == more;
    } else {
      var c, rest := name[0], name[1..];
      assert name == [c] + rest && name + more == [c] + (rest + more);
      LStripOne(c, rest);
      LStripOne(c, rest + more);
      if IsSpace(c) {
        LStripFront(rest, more);
      }
    }
  }

  // ---------------------------------------------------------------- lines

  /** No line break inside. */
  predicate OneLine(s: string) {
    forall i :: 0 <= i < |s| ==> s[i] != '\n'
  }

  /** str.split("\n") */
  function SplitLines(s: string): (lines: seq<string>)
    ensures lines != []
  {
    if s == "" then [""]
    else
      var rest := SplitLines(s[1..]);
      if s[0] == '\n' then [""] + rest else [[s[0]] + rest[0]] + rest[1..]
  }

  /** "\n".join(lines) */
  function JoinLines(lines: seq<string>): string
    requires lines != []
  {
    if |lines| == 1 then lines[0] else lines[0] + ("\n" + JoinLines(lines[1..]))
  }

  lemma {:induction false} SplitGivesLines(s: string)
    ensures forall i :: 0 <= i < |SplitLines(s)| ==> OneLine(SplitLines(s)[i])
  {
    if s != "" {
      SplitGivesLines(s[1..]);
    }
  }

  lemma {:induction false} SplitFirstLine(line: string, rest: string)
    requires OneLine(line)
    ensures SplitLines(line + ("\n" + rest)) == [line] + SplitLines(rest)
  {
    var text := line + ("\n" + rest);
    if line == "" {
      assert text[1..] == rest;
    } else {
      assert text[1..] == line[1..] + ("\n" + rest);
      SplitFirstLine(line[1..], rest);
      assert [line[0]] + line[1..] == line;
    }
  }

  lemma {:induction false} SplitSingleLine(line: string)
    requires OneLine(line)
    ensures SplitLines(line) == [line]
  {
    if line != "" {
      SplitSingleLine(line[1..]);
      assert [line[0]] + line[1..] == line;
    }
  }

  /** Lines joined and split again are the same lines. */
  lemma {:induction false} SplitJoinLines(lines: seq<string>)
    requires lines != [] && forall i :: 0 <= i < |lines| ==> OneLine(lines[i])
    ensures SplitLines(JoinLines(lines)) == lines
  {
    if |lines| == 1 {
      SplitSingleLine(lines[0]);
    } else {
      SplitFirstLine(lines[0], JoinLines(lines[1..]));
      SplitJoinLines(lines[1..]);
    }
  }
}
