/**
 The diff parser is the inverse of printing a git-style diff, and parses concatenated diffs one by
 one, whatever the text between the headers looks like.
 */
module DiffPrinting {
  import opened Options
  import opened DiffParser
  import opened DiffText

  /** A line of a hunk; its text may look like any header. */
  datatype BodyLine =
    | Unchanged(text: string)
    | Insertion(text: string)
    | Deletion(text: string)
    | Remark(text: string)         // "\ No newline at end of file"

  datatype Hunk = Hunk(range: string, body: seq<BodyLine>)

  /** The `---`/`+++` pair; no new path means /dev/null. */
  datatype Names = Names(oldName: string, newPath: Option<string>)

  datatype FileDiff = FileDiff(title: string, metadata: seq<string>, names: Option<Names>, hunks: seq<Hunk>)

  // ---- printing ----

  function BodyText(line: BodyLine): string
  {
    match line
    case Unchanged(text) => " " + text
    case Insertion(text) => "+" + text
    case Deletion(text) => "-" + text
    case Remark(text) => "\\" + text
  }

  function BodyLines(body: seq<BodyLine>): seq<string>
  {
    if body == [] then [] else [BodyText(body[0])] + BodyLines(body[1..])
  }

  function HunkLines(hunks: seq<Hunk>): seq<string>
  {
    if hunks == [] then []
    else ["@@ " + hunks[0].range] + BodyLines(hunks[0].body) + HunkLines(hunks[1..])
  }

  function NameLines(names: Option<Names>): seq<string>
  {
    match names
    case None => []
    case Some(Names(oldName, None)) => ["--- " + oldName, "+++ /dev/null"]
    case Some(Names(oldName, Some(path))) => ["--- " + oldName, "+++ b/" + path]
  }

  function FileLines(f: FileDiff): seq<string>
  {
    ["diff --git " + f.title] + f.metadata + NameLines(f.names) + HunkLines(f.hunks)
  }

  function Text(lines: seq<string>): string
  {
    if lines == [] then "" else lines[0] + "\n" + Text(lines[1..])
  }

  function Print(files: seq<FileDiff>): string
  {
    if files == [] then "" else Text(FileLines(files[0])) + Print(files[1..])
  }

  // ---- what the summary of a structured diff is ----

  function LineSummary(line: BodyLine, path: Option<string>, alnum: char -> bool): Summary
  {
    match line
    case Insertion(text) =>
      Summary(1, 0, if path.Some? && Effective(text, alnum) then [Fingerprint(path.value, Squeeze(text))] else [])
    case Deletion(_) => Summary(0, 1, [])
    case _ => EMPTY
  }

  function BodySummary(body: seq<BodyLine>, path: Option<string>, alnum: char -> bool): Summary
  {
    if body == [] then EMPTY
    else Sum(LineSummary(body[0], path, alnum), BodySummary(body[1..], path, alnum))
  }

  function HunkSummary(hunks: seq<Hunk>, path: Option<string>, alnum: char -> bool): Summary
  {
    if hunks == [] then EMPTY
    else Sum(BodySummary(hunks[0].body, path, alnum), HunkSummary(hunks[1..], path, alnum))
  }

  /** The path new lines are filed under: trailing white space does not survive in a header. */
  function NewPath(f: FileDiff): Option<string>
  {
    if f.names.Some? && f.names.value.newPath.Some? then Some(TrimEnd(f.names.value.newPath.value)) else None
  }

  function FileSummary(f: FileDiff, alnum: char -> bool): Summary
  {
    HunkSummary(f.hunks, NewPath(f), alnum)
  }

  function TotalSummary(files: seq<FileDiff>, alnum: char -> bool): Summary
  {
    if files == [] then EMPTY else Sum(FileSummary(files[0], alnum), TotalSummary(files[1..], alnum))
  }

  // ---- well-formed diffs ----

  predicate OneLine(s: string)
  {
    forall i | 0 <= i < |s| :: s[i] != '\n'
  }

  /** git's lines between the title and the names: `index ...`, modes, renames. */
  predicate IsMetadata(line: string)
  {
    OneLine(line) && !StartsWith(line, "+") && !StartsWith(line, "-")
    && !StartsWith(line, "@@ ") && !StartsWith(line, "diff --git ")
  }

  predicate WellFormed(f: FileDiff)
  {
    && OneLine(f.title)
    && (forall i | 0 <= i < |f.metadata| :: IsMetadata(f.metadata[i]))
    && (f.names.Some? ==>
          OneLine(f.names.value.oldName)
          && (f.names.value.newPath.Some? ==> OneLine(f.names.value.newPath.value)))
    && (forall h | h in f.hunks :: OneLine(h.range) && forall b | b in h.body :: OneLine(b.text))
  }

  // ---- lines of a printed text ----

  lemma {:induction false} FindAppend(s: string, t: string, p: char -> bool)
    requires Find(s, p) == |s| && (t == "" || p(t[0]))
    ensures Find(s + t, p) == |s|
  {
    if s == "" {
      assert s + t == t;
    } else {
      FindAppend(s[1..], t, p);
      assert (s + t)[1..] == s[1..] + t;
    }
  }

  lemma {:induction false} FindPrefix(s: string, t: string, p: char -> bool)
    requires Find(s, p) < |s|
    ensures Find(s + t, p) == Find(s, p)
  {
    if !p(s[0]) {
      FindPrefix(s[1..], t, p);
      assert (s + t)[1..] == s[1..] + t;
    }
  }

  lemma {:induction false} FindNone(s: string, p: char -> bool)
    requires forall i | 0 <= i < |s| :: !p(s[i])
    ensures Find(s, p) == |s|
  {
    if s != "" { FindNone(s[1..], p); }
  }

  lemma {:induction false} CutLine(s: string, n: nat)
    requires n == Find(s, IsNewline) < |s|
    ensures Lines(s) == [StripCr(s[..n])] + Lines(s[n + 1..])
  {
  }

  lemma {:induction false} LinesPrepend(line: string, a: seq<string>, b: seq<string>)
    ensures [line] + (a + b) == [line] + a + b
  {
  }

  lemma {:induction false} CutKept(s: string, t: string, n: nat)
    requires n == Find(s, IsNewline) < |s|
    ensures n == Find(s + t, IsNewline) && (s + t)[..n] == s[..n] && (s + t)[n + 1..] == s[n + 1..] + t
  {
    FindPrefix(s, t, IsNewline);
  }

  lemma {:induction false} AppendToLine(s: string, t: string, n: nat)
    requires n == Find(s, IsNewline) < |s|
    requires Lines(s[n + 1..] + t) == Lines(s[n + 1..]) + Lines(t)
    ensures Lines(s + t) == Lines(s) + Lines(t)
  {
    CutKept(s, t, n);
    CutLine(s, n);
    CutLine(s + t, n);
    LinesPrepend(StripCr(s[..n]), Lines(s[n + 1..]), Lines(t));
  }

  /** A text that ends in a newline splits off cleanly. */
  lemma {:induction false} LinesAppend(s: string, t: string)
    requires s == "" || s[|s| - 1] == '\n'
    ensures Lines(s + t) == Lines(s) + Lines(t)
    decreases |s|
  {
    if s == "" {
      assert s + t == t;
    } else {
      var n := Find(s, IsNewline);
      assert n < |s| by { if n == |s| { assert IsNewline(s[|s| - 1]); } }
      LinesAppend(s[n + 1..], t);
      AppendToLine(s, t, n);
    }
  }

  lemma {:induction false} OneLineText(line: string, rest: string)
    requires OneLine(line)
    ensures Lines(line + "\n" + rest) == [StripCr(line)] + Lines(rest)
  {
    FindNone(line, IsNewline);
    FindAppend(line, "\n" + rest, IsNewline);
    assert line + "\n" + rest == line + ("\n" + rest);
    assert (line + "\n" + rest)[..|line|] == line;
    assert (line + "\n" + rest)[|line| + 1..] == rest;
  }

  function Stripped(lines: seq<string>): seq<string>
  {
    if lines == [] then [] else [StripCr(lines[0])] + Stripped(lines[1..])
  }

  predicate AllOneLine(lines: seq<string>)
  {
    forall i | 0 <= i < |lines| :: OneLine(lines[i])
  }

  lemma {:induction false} LinesOfText(lines: seq<string>)
    requires AllOneLine(lines)
    ensures Lines(Text(lines)) == Stripped(lines)
  {
    if lines != [] {
      OneLineText(lines[0], Text(lines[1..]));
      LinesOfText(lines[1..]);
    }
  }

  lemma {:induction false} StrippedAppend(a: seq<string>, b: seq<string>)
    ensures Stripped(a + b) == Stripped(a) + Stripped(b)
  {
    if a == [] {
      assert a + b == b;
    } else {
      StrippedAppend(a[1..], b);
      assert (a + b)[1..] == a[1..] + b;
    }
  }

  // ---- white space at the end of a line does not matter ----

  lemma {:induction false} WordsTrailing(s: string, c: char)
    requires IsWhitespace(c)
    ensures Words(s + [c]) == Words(s)
    decreases |s|
  {
    if s == "" {
      assert (s + [c])[1..] == "";
    } else if IsWhitespace(s[0]) {
      WordsTrailing(s[1..], c);
      assert (s + [c])[1..] == s[1..] + [c];
    } else {
      var n := Find(s, IsWhitespace);
      if n < |s| {
        FindPrefix(s, [c], IsWhitespace);
        assert (s + [c])[..n] == s[..n] && (s + [c])[n..] == s[n..] + [c];
        WordsTrailing(s[n..], c);
      } else {
        FindAppend(s, [c], IsWhitespace);
        assert (s + [c])[..n] == s && (s + [c])[n..] == [c] && s[..n] == s && s[n..] == "";
        assert [c][1..] == "";
      }
    }
  }

  predicate IsWord(w: string)
  {
    w != "" && forall i | 0 <= i < |w| :: !IsWhitespace(w[i])
  }

  lemma {:induction false} WordsAreWords(s: string)
    ensures forall i | 0 <= i < |Words(s)| :: IsWord(Words(s)[i])
    decreases |s|
  {
    if s != "" {
      if IsWhitespace(s[0]) { WordsAreWords(s[1..]); } else { WordsAreWords(s[Find(s, IsWhitespace)..]); }
    }
  }

  lemma {:induction false} WordsOfJoin(words: seq<string>)
    requires forall i | 0 <= i < |words| :: IsWord(words[i])
    ensures Words(Join(words)) == words
    decreases |words|
  {
    if words != [] {
      var w := words[0];
      var tail := if |words| == 1 then "" else " " + Join(words[1..]);
      assert Join(words) == w + tail;
      FindNone(w, IsWhitespace);
      FindAppend(w, tail, IsWhitespace);
      assert (w + tail)[..|w|] == w && (w + tail)[|w|..] == tail;
      if |words| > 1 {
        assert tail[1..] == Join(words[1..]);
        WordsOfJoin(words[1..]);
      }
    }
  }

  /** A normalized line is its own normal form, so fingerprints do not depend on spacing. */
  lemma {:induction false} NormalizeIsIdempotent(line: string, alnum: char -> bool)
    requires NormalizeLine(line, alnum).Some?
    ensures NormalizeLine(NormalizeLine(line, alnum).value, alnum) == NormalizeLine(line, alnum)
  {
    WordsAreWords(line);
    WordsOfJoin(Words(line));
  }

  lemma {:induction false} NormalizeStripped(text: string, alnum: char -> bool)
    ensures NormalizeLine(StripCr(text), alnum) == NormalizeLine(text, alnum)
  {
    if StripCr(text) != text {
      assert text == StripCr(text) + ['\r'];
      WordsTrailing(StripCr(text), '\r');
    }
  }

  lemma {:induction false} TrimEndTrailing(s: string, c: char)
    requires IsWhitespace(c)
    ensures TrimEnd(s + [c]) == TrimEnd(s)
  {
    assert (s + [c])[..|s|] == s;
  }

  /** A new name in a header is read back without its trailing white space. */
  lemma {:induction false} NewNameReadBack(path: string)
    ensures NormalizePath(StripCr("+++ b/" + path)[4..]) == Some(TrimEnd(path))
    ensures StartsWith(StripCr("+++ b/" + path), "+++ ")
  {
    var header := "+++ b/" + path;
    var name := "b/" + path;
    assert header[4..] == name;
    if StripCr(header) != header {
      assert StripCr(header)[4..] == StripCr(name);
      assert name == StripCr(name) + ['\r'];
      TrimEndTrailing(StripCr(name), '\r');
    }
    assert TrimStart(StripCr(header)[4..]) == StripCr(header)[4..];
    TrimEndBehindPrefix(path);
    assert Trim(StripCr(header)[4..]) == "b/" + TrimEnd(path);
    PrefixDrops(TrimEnd(path));
  }

  lemma {:induction false} PrefixDrops(path: string)
    ensures "b/" + path != "/dev/null" && StartsWith("b/" + path, "b/") && ("b/" + path)[2..] == path
  {
    assert ("b/" + path)[0] == 'b' && "/dev/null"[0] == '/';
  }

  lemma {:induction false} TrimEndBehindPrefix(path: string)
    ensures TrimEnd("b/" + path) == "b/" + TrimEnd(path)
  {
    if path != "" && IsWhitespace(path[|path| - 1]) {
      assert ("b/" + path)[..|path| + 1] == "b/" + path[..|path| - 1];
      TrimEndBehindPrefix(path[..|path| - 1]);
    } else if path == "" {
      assert "b/" + path == "b/";
    }
  }

  // ---- scanning ----

  function MoveOver(c: Cursor, lines: seq<string>): Cursor
    decreases |lines|
  {
    if lines == [] then c else MoveOver(MoveCursor(c, lines[0]), lines[1..])
  }

  lemma {:induction false} ScanCons(c: Cursor, lines: seq<string>, alnum: char -> bool)
    requires lines != []
    ensures Scan(c, lines, alnum)
         == Sum(Contribution(c, lines[0], alnum), Scan(MoveCursor(c, lines[0]), lines[1..], alnum))
    ensures MoveOver(c, lines) == MoveOver(MoveCursor(c, lines[0]), lines[1..])
  {
  }

  lemma {:induction false} ScanAppend(c: Cursor, a: seq<string>, b: seq<string>, alnum: char -> bool)
    ensures Scan(c, a + b, alnum) == Sum(Scan(c, a, alnum), Scan(MoveOver(c, a), b, alnum))
    decreases |a|
  {
    if a == [] {
      assert a + b == b;
      SumZero(Scan(c, b, alnum));
    } else {
      var c' := MoveCursor(c, a[0]);
      var x, y, z := Contribution(c, a[0], alnum), Scan(c', a[1..], alnum), Scan(MoveOver(c', a[1..]), b, alnum);
      calc {
        Scan(c, a + b, alnum);
        { ScanCons(c, a + b, alnum); assert (a + b)[1..] == a[1..] + b; }
        Sum(x, Scan(c', a[1..] + b, alnum));
        { ScanAppend(c', a[1..], b, alnum); }
        Sum(x, Sum(y, z));
        { SumAssoc(x, y, z); }
        Sum(Sum(x, y), z);
        { ScanCons(c, a, alnum); }
        Sum(Scan(c, a, alnum), Scan(MoveOver(c, a), b, alnum));
      }
    }
  }

  /** A `diff --git` line makes the parser forget where it was. */
  lemma {:induction false} ScanRestarts(c: Cursor, lines: seq<string>, alnum: char -> bool)
    requires lines == [] || StartsWith(lines[0], "diff --git ")
    ensures Scan(c, lines, alnum) == Scan(TOP, lines, alnum)
  {
  }

  lemma {:induction false} FirstLine(t: string)
    requires StartsWith(t, "diff --git ")
    ensures Lines(t) != [] && StartsWith(Lines(t)[0], "diff --git ")
  {
    var title := "diff --git ";
    var n := Find(t, IsNewline);
    assert forall i | 0 <= i < |title| :: t[i] == title[i] != '\n';
    assert n >= |title|;
    assert t[..n][..|title|] == title;
  }

  /**
   Compositionality, for arbitrary text: a diff that opens with `diff --git` can be parsed apart
   from whatever complete lines come before it.
   */
  lemma ParseConcatenation(s: string, t: string, alnum: char -> bool)
    requires s == "" || s[|s| - 1] == '\n'
    requires t == "" || StartsWith(t, "diff --git ")
    ensures Parse(s + t, alnum) == Sum(Parse(s, alnum), Parse(t, alnum))
  {
    LinesAppend(s, t);
    ScanAppend(TOP, Lines(s), Lines(t), alnum);
    if t != "" { FirstLine(t); }
    ScanRestarts(MoveOver(TOP, Lines(s)), Lines(t), alnum);
  }

  // ---- one printed file ----

  lemma {:induction false} ScanBodyLine(line: BodyLine, path: Option<string>, alnum: char -> bool)
    ensures Contribution(Cursor(path, true), StripCr(BodyText(line)), alnum) == LineSummary(line, path, alnum)
    ensures MoveCursor(Cursor(path, true), StripCr(BodyText(line))) == Cursor(path, true)
  {
    var printed := StripCr(BodyText(line));
    assert printed == [BodyText(line)[0]] + StripCr(line.text);
    assert printed[1..] == StripCr(line.text);
    NormalizeStripped(line.text, alnum);
    FingerprintIffEffective(line.text, alnum);
  }

  lemma {:induction false} ScanBody(body: seq<BodyLine>, path: Option<string>, alnum: char -> bool)
    ensures Scan(Cursor(path, true), Stripped(BodyLines(body)), alnum) == BodySummary(body, path, alnum)
    ensures MoveOver(Cursor(path, true), Stripped(BodyLines(body))) == Cursor(path, true)
  {
    if body != [] {
      var lines := Stripped(BodyLines(body));
      assert lines[0] == StripCr(BodyText(body[0])) && lines[1..] == Stripped(BodyLines(body[1..]));
      ScanCons(Cursor(path, true), lines, alnum);
      ScanBodyLine(body[0], path, alnum);
      ScanBody(body[1..], path, alnum);
    }
  }

  lemma {:induction false} HeaderKept(prefix: string, s: string)
    requires prefix != "" && prefix[|prefix| - 1] != '\r'
    ensures StartsWith(StripCr(prefix + s), prefix)
  {
  }

  lemma {:induction false} StrippedHunk(hunks: seq<Hunk>)
    requires hunks != []
    ensures Stripped(HunkLines(hunks))
         == [StripCr("@@ " + hunks[0].range)] + (Stripped(BodyLines(hunks[0].body)) + Stripped(HunkLines(hunks[1..])))
  {
    var header, body, rest := "@@ " + hunks[0].range, BodyLines(hunks[0].body), HunkLines(hunks[1..]);
    assert HunkLines(hunks) == [header] + (body + rest);
    StrippedAppend([header], body + rest);
    StrippedAppend(body, rest);
    assert Stripped([header]) == [StripCr(header)];
  }

  lemma {:induction false} ScanHunks(hunks: seq<Hunk>, path: Option<string>, inHunk: bool, alnum: char -> bool)
    ensures Scan(Cursor(path, inHunk), Stripped(HunkLines(hunks)), alnum) == HunkSummary(hunks, path, alnum)
  {
    if hunks != [] {
      var h := hunks[0];
      var header, body, rest := "@@ " + h.range, BodyLines(h.body), HunkLines(hunks[1..]);
      HeaderKept("@@ ", h.range);
      StrippedHunk(hunks);
      ScanAppend(Cursor(path, true), Stripped(body), Stripped(rest), alnum);
      ScanBody(h.body, path, alnum);
      ScanHunks(hunks[1..], path, true, alnum);
      SumZero(HunkSummary(hunks, path, alnum));
    }
  }

  lemma {:induction false} ScanMetadataLine(line: string, alnum: char -> bool)
    requires IsMetadata(line)
    ensures Contribution(TOP, StripCr(line), alnum) == EMPTY && MoveCursor(TOP, StripCr(line)) == TOP
  {
    assert StripCr(line) <= line;
  }

  lemma {:induction false} ScanMetadata(lines: seq<string>, alnum: char -> bool)
    requires forall i | 0 <= i < |lines| :: IsMetadata(lines[i])
    ensures Scan(TOP, Stripped(lines), alnum) == EMPTY && MoveOver(TOP, Stripped(lines)) == TOP
  {
    if lines != [] {
      assert Stripped(lines)[0] == StripCr(lines[0]) && Stripped(lines)[1..] == Stripped(lines[1..]);
      ScanCons(TOP, Stripped(lines), alnum);
      ScanMetadataLine(lines[0], alnum);
      ScanMetadata(lines[1..], alnum);
      SumZero(EMPTY);
    }
  }

  lemma {:induction false} ScanOldName(name: string, alnum: char -> bool)
    ensures Contribution(TOP, StripCr("--- " + name), alnum) == EMPTY
    ensures MoveCursor(TOP, StripCr("--- " + name)) == TOP
  {
    HeaderKept("--- ", name);
    assert StripCr("--- " + name)[0] == '-';
  }

  lemma {:induction false} ScanNewName(path: Option<string>, alnum: char -> bool)
    ensures
      var line := StripCr(if path.Some? then "+++ b/" + path.value else "+++ /dev/null");
      && Contribution(TOP, line, alnum) == EMPTY
      && MoveCursor(TOP, line) == Cursor(if path.Some? then Some(TrimEnd(path.value)) else None, false)
  {
    var line := StripCr(if path.Some? then "+++ b/" + path.value else "+++ /dev/null");
    if path.Some? { NewNameReadBack(path.value); } else { DevNullReadBack(); }
    assert StartsWith(line, "+++ ") && line[0] == '+';
  }

  lemma {:induction false} ScanNames(f: FileDiff, alnum: char -> bool)
    ensures Scan(TOP, Stripped(NameLines(f.names)), alnum) == EMPTY
    ensures MoveOver(TOP, Stripped(NameLines(f.names))) == Cursor(NewPath(f), false)
  {
    if f.names.Some? {
      var Names(oldName, newPath) := f.names.value;
      var first := StripCr("--- " + oldName);
      var second := StripCr(if newPath.Some? then "+++ b/" + newPath.value else "+++ /dev/null");
      var lines := NameLines(f.names);
      assert Stripped(lines[1..]) == [second] by {
        assert lines[1..] == [lines[1]] && lines[1..][1..] == [];
        assert Stripped([]) == [];
      }
      assert Stripped(lines) == [first, second];
      ScanOldName(oldName, alnum);
      ScanNewName(newPath, alnum);
      ScanTwo(TOP, first, second, alnum);
      SumZero(EMPTY);
    }
  }

  lemma {:induction false} ScanTwo(c: Cursor, first: string, second: string, alnum: char -> bool)
    ensures Scan(c, [first, second], alnum)
         == Sum(Contribution(c, first, alnum), Sum(Contribution(MoveCursor(c, first), second, alnum), EMPTY))
    ensures MoveOver(c, [first, second]) == MoveCursor(MoveCursor(c, first), second)
  {
    assert [first, second][1..] == [second] && [second][1..] == [];
    ScanCons(c, [first, second], alnum);
    ScanCons(MoveCursor(c, first), [second], alnum);
  }

  lemma {:induction false} DevNullReadBack()
    ensures StripCr("+++ /dev/null") == "+++ /dev/null"
    ensures NormalizePath("+++ /dev/null"[4..]) == None
  {
    assert "+++ /dev/null"[4..] == "/dev/null";
  }

  lemma {:induction false} BodyOneLine(body: seq<BodyLine>)
    requires forall b | b in body :: OneLine(b.text)
    ensures AllOneLine(BodyLines(body))
  {
    if body != [] { BodyOneLine(body[1..]); }
  }

  lemma {:induction false} HunksOneLine(hunks: seq<Hunk>)
    requires forall h | h in hunks :: OneLine(h.range) && forall b | b in h.body :: OneLine(b.text)
    ensures AllOneLine(HunkLines(hunks))
  {
    if hunks != [] {
      assert hunks[0] in hunks;
      BodyOneLine(hunks[0].body);
      HunksOneLine(hunks[1..]);
    }
  }

  lemma {:induction false} FileOneLine(f: FileDiff)
    requires WellFormed(f)
    ensures AllOneLine(FileLines(f))
  {
    HunksOneLine(f.hunks);
    assert AllOneLine(NameLines(f.names));
    assert AllOneLine(f.metadata);
  }

  lemma {:induction false} StrippedFile(f: FileDiff)
    ensures Stripped(FileLines(f))
         == [StripCr("diff --git " + f.title)]
            + (Stripped(f.metadata) + (Stripped(NameLines(f.names)) + Stripped(HunkLines(f.hunks))))
  {
    var title := "diff --git " + f.title;
    var names, hunks := NameLines(f.names), HunkLines(f.hunks);
    assert FileLines(f) == [title] + (f.metadata + (names + hunks));
    StrippedAppend([title], f.metadata + (names + hunks));
    StrippedAppend(f.metadata, names + hunks);
    StrippedAppend(names, hunks);
    assert Stripped([title]) == [StripCr(title)];
  }

  lemma {:induction false} ParseFile(f: FileDiff, alnum: char -> bool)
    requires WellFormed(f)
    ensures Parse(Text(FileLines(f)), alnum) == FileSummary(f, alnum)
  {
    FileOneLine(f);
    LinesOfText(FileLines(f));
    StrippedFile(f);
    var names, hunks := NameLines(f.names), HunkLines(f.hunks);
    HeaderKept("diff --git ", f.title);
    ScanAppend(TOP, Stripped(f.metadata), Stripped(names) + Stripped(hunks), alnum);
    ScanMetadata(f.metadata, alnum);
    ScanAppend(TOP, Stripped(names), Stripped(hunks), alnum);
    ScanNames(f, alnum);
    ScanHunks(f.hunks, NewPath(f), false, alnum);
    SumZero(FileSummary(f, alnum));
  }

  lemma {:induction false} TextEnds(lines: seq<string>)
    requires lines != []
    ensures Text(lines) != "" && Text(lines)[|Text(lines)| - 1] == '\n'
  {
    if |lines| > 1 { TextEnds(lines[1..]); }
  }

  /**
   The parser inverts printing: for every list of well-formed file diffs the parsed counts and
   fingerprints are those of the structure, even where body text imitates file headers.
   */
  lemma {:induction false} ParseInvertsPrint(files: seq<FileDiff>, alnum: char -> bool)
    requires forall f | f in files :: WellFormed(f)
    ensures Parse(Print(files), alnum) == TotalSummary(files, alnum)
  {
    if files != [] {
      assert files[0] in files;
      TextEnds(FileLines(files[0]));
      if |files| > 1 {
        assert StartsWith(Text(FileLines(files[1])), "diff --git ");
        assert files[1..][0] == files[1];
      }
      ParseConcatenation(Text(FileLines(files[0])), Print(files[1..]), alnum);
      ParseFile(files[0], alnum);
      ParseInvertsPrint(files[1..], alnum);
    }
  }

  /** Which characters count as alphanumeric matters for fingerprints only. */
  lemma {:induction false} CountsIgnoreAlphabet(c: Cursor, lines: seq<string>, a: char -> bool, b: char -> bool)
    ensures Scan(c, lines, a).added == Scan(c, lines, b).added
    ensures Scan(c, lines, a).deleted == Scan(c, lines, b).deleted
    decreases |lines|
  {
    if lines != [] {
      ScanCons(c, lines, a);
      ScanCons(c, lines, b);
      CountsIgnoreAlphabet(MoveCursor(c, lines[0]), lines[1..], a, b);
    }
  }

  /** The path read back from its header is the path itself exactly when it does not end in white space. */
  lemma {:induction false} PathSurvivesIff(path: string)
    ensures NormalizePath(StripCr("+++ b/" + path)[4..]) == Some(path)
       <==> path == "" || !IsWhitespace(path[|path| - 1])
  {
    NewNameReadBack(path);
    if path != "" && IsWhitespace(path[|path| - 1]) {
      TrimEndShrinks(path[..|path| - 1]);
    }
  }

  lemma {:induction false} TrimEndShrinks(s: string)
    ensures |TrimEnd(s)| <= |s|
  {
    if s != "" { TrimEndShrinks(s[..|s| - 1]); }
  }
}
