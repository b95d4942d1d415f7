/**
 The diff parser on arbitrary text, line by line: what a line counts for depends on the lines before it
 only through the last `diff --git`, the hunk header since then and the last new name outside a hunk.
 */
module DiffLookback {
  import opened Options
  import opened DiffParser
  import opened DiffText
  import opened DiffPrinting

  predicate Opens(line: string)
  {
    StartsWith(line, "diff --git ")
  }

  /** A hunk was opened since the file was. */
  predicate InHunkAt(lines: seq<string>, i: nat)
    requires i <= |lines|
  {
    i > 0 && !Opens(lines[i - 1]) && (StartsWith(lines[i - 1], "@@ ") || InHunkAt(lines, i - 1))
  }

  /** The last new name outside a hunk since the file was opened. */
  function PathAt(lines: seq<string>, i: nat): Option<string>
    requires i <= |lines|
  {
    if i == 0 || Opens(lines[i - 1]) then None
    else if StartsWith(lines[i - 1], "+++ ") && !InHunkAt(lines, i - 1) then NormalizePath(lines[i - 1][4..])
    else PathAt(lines, i - 1)
  }

  predicate IsAdded(lines: seq<string>, i: nat)
    requires i < |lines|
  {
    lines[i] != "" && lines[i][0] == '+' && (InHunkAt(lines, i) || !StartsWith(lines[i], "+++ "))
  }

  predicate IsDeleted(lines: seq<string>, i: nat)
    requires i < |lines|
  {
    lines[i] != "" && lines[i][0] == '-' && (InHunkAt(lines, i) || !StartsWith(lines[i], "--- "))
  }

  function AddedIn(lines: seq<string>, n: nat): nat
    requires n <= |lines|
  {
    if n == 0 then 0 else AddedIn(lines, n - 1) + if IsAdded(lines, n - 1) then 1 else 0
  }

  function DeletedIn(lines: seq<string>, n: nat): nat
    requires n <= |lines|
  {
    if n == 0 then 0 else DeletedIn(lines, n - 1) + if IsDeleted(lines, n - 1) then 1 else 0
  }

  /** One fingerprint for each effective added line with a path in force. */
  function PrintsIn(lines: seq<string>, n: nat, alnum: char -> bool): seq<Fingerprint>
    requires n <= |lines|
  {
    if n == 0 then []
    else
      var i := n - 1;
      PrintsIn(lines, i, alnum)
      + if IsAdded(lines, i) && PathAt(lines, i).Some? && Effective(lines[i][1..], alnum)
        then [Fingerprint(PathAt(lines, i).value, Squeeze(lines[i][1..]))] else []
  }

  lemma {:induction false} ScanSnoc(c: Cursor, lines: seq<string>, line: string, alnum: char -> bool)
    ensures Scan(c, lines + [line], alnum) == Sum(Scan(c, lines, alnum), Contribution(MoveOver(c, lines), line, alnum))
    ensures MoveOver(c, lines + [line]) == MoveCursor(MoveOver(c, lines), line)
    decreases |lines|
  {
    ScanAppend(c, lines, [line], alnum);
    ScanCons(MoveOver(c, lines), [line], alnum);
    assert [line][1..] == [];
    SumZero(Contribution(MoveOver(c, lines), line, alnum));
    MoveSnoc(c, lines, line);
  }

  lemma {:induction false} MoveSnoc(c: Cursor, lines: seq<string>, line: string)
    ensures MoveOver(c, lines + [line]) == MoveCursor(MoveOver(c, lines), line)
    decreases |lines|
  {
    if lines == [] {
      assert [] + [line] == [line] && [line][1..] == [];
    } else {
      assert (lines + [line])[0] == lines[0] && (lines + [line])[1..] == lines[1..] + [line];
      MoveSnoc(MoveCursor(c, lines[0]), lines[1..], line);
    }
  }

  /** The first character tells the four kinds of line the parser looks for apart. */
  lemma {:induction false} FirstCharacter(line: string)
    ensures Opens(line) ==> line[0] == 'd'
    ensures StartsWith(line, "@@ ") ==> line[0] == '@'
    ensures StartsWith(line, "+++ ") ==> line[0] == '+'
    ensures StartsWith(line, "--- ") ==> line[0] == '-'
    ensures StartsWith(line, "+") <==> line != "" && line[0] == '+'
    ensures StartsWith(line, "-") <==> line != "" && line[0] == '-'
  {
  }

  lemma {:induction false} LineByLine(lines: seq<string>, i: nat, alnum: char -> bool)
    requires i < |lines|
    ensures
      var c := Cursor(PathAt(lines, i), InHunkAt(lines, i));
      && MoveCursor(c, lines[i]) == Cursor(PathAt(lines, i + 1), InHunkAt(lines, i + 1))
      && Contribution(c, lines[i], alnum)
         == Summary(if IsAdded(lines, i) then 1 else 0, if IsDeleted(lines, i) then 1 else 0,
                    if IsAdded(lines, i) && PathAt(lines, i).Some? && Effective(lines[i][1..], alnum)
                    then [Fingerprint(PathAt(lines, i).value, Squeeze(lines[i][1..]))] else [])
  {
    FirstCharacter(lines[i]);
    if lines[i] != "" { FingerprintIffEffective(lines[i][1..], alnum); }
  }

  lemma {:induction false} ScanLooksBack(lines: seq<string>, n: nat, alnum: char -> bool)
    requires n <= |lines|
    ensures Scan(TOP, lines[..n], alnum) == Summary(AddedIn(lines, n), DeletedIn(lines, n), PrintsIn(lines, n, alnum))
    ensures MoveOver(TOP, lines[..n]) == Cursor(PathAt(lines, n), InHunkAt(lines, n))
  {
    if n > 0 {
      var i := n - 1;
      ScanLooksBack(lines, i, alnum);
      assert lines[..n] == lines[..i] + [lines[i]];
      ScanSnoc(TOP, lines[..i], lines[i], alnum);
      LineByLine(lines, i, alnum);
    }
  }

  /** For any text whatever, counts and fingerprints are those of its lines, each judged by the lines before it. */
  lemma {:induction false} ParseLooksBack(diff: string, alnum: char -> bool)
    ensures
      var lines := Lines(diff);
      Parse(diff, alnum)
      == Summary(AddedIn(lines, |lines|), DeletedIn(lines, |lines|), PrintsIn(lines, |lines|, alnum))
  {
    ScanLooksBack(Lines(diff), |Lines(diff)|, alnum);
    assert Lines(diff)[..|Lines(diff)|] == Lines(diff);
  }

  // ---- the last line ----

  /** A carriage return at the end of a line does not matter. */
  lemma {:induction false} StripsAlike(c: Cursor, line: string, alnum: char -> bool)
    ensures Contribution(c, StripCr(line), alnum) == Contribution(c, line, alnum)
    ensures MoveCursor(c, StripCr(line)) == MoveCursor(c, line)
  {
    var t := StripCr(line);
    if t != line {
      assert line == t + ['\r'];
      SamePrefixes(t);
      SameContribution(c, t, alnum);
      SameMove(c, t);
    }
  }

  predicate SameStart(t: string, u: string)
  {
    && (Opens(t) <==> Opens(u)) && (StartsWith(t, "@@ ") <==> StartsWith(u, "@@ "))
    && (StartsWith(t, "+++ ") <==> StartsWith(u, "+++ ")) && (StartsWith(t, "--- ") <==> StartsWith(u, "--- "))
    && (StartsWith(t, "+") <==> StartsWith(u, "+")) && (StartsWith(t, "-") <==> StartsWith(u, "-"))
  }

  lemma {:induction false} SamePrefixes(t: string)
    ensures SameStart(t, t + ['\r'])
  {
    KeepsPrefix(t, "diff --git ");
    KeepsPrefix(t, "@@ ");
    KeepsPrefix(t, "+++ ");
    KeepsPrefix(t, "--- ");
    KeepsPrefix(t, "+");
    KeepsPrefix(t, "-");
  }

  lemma {:induction false} SameContribution(c: Cursor, t: string, alnum: char -> bool)
    requires SameStart(t, t + ['\r'])
    ensures Contribution(c, t + ['\r'], alnum) == Contribution(c, t, alnum)
  {
    if StartsWith(t, "+") {
      assert (t + ['\r'])[1..] == t[1..] + ['\r'];
      WordsTrailing(t[1..], '\r');
    }
  }

  lemma {:induction false} SameMove(c: Cursor, t: string)
    requires SameStart(t, t + ['\r'])
    ensures MoveCursor(c, t + ['\r']) == MoveCursor(c, t)
  {
    if StartsWith(t, "+++ ") {
      assert (t + ['\r'])[4..] == t[4..] + ['\r'];
      PathTrailing(t[4..]);
    }
  }

  lemma {:induction false} KeepsPrefix(t: string, prefix: string)
    requires prefix != "" && prefix[|prefix| - 1] != '\r'
    ensures StartsWith(t + ['\r'], prefix) <==> StartsWith(t, prefix)
  {
    if StartsWith(t + ['\r'], prefix) {
      assert |prefix| <= |t|;
      assert prefix == (t + ['\r'])[..|prefix|] == t[..|prefix|];
    }
  }

  lemma {:induction false} PathTrailing(name: string)
    ensures NormalizePath(name + ['\r']) == NormalizePath(name)
    decreases |name|
  {
    if name == "" {
      assert "" + ['\r'] == ['\r'] && ['\r'][1..] == "";
    } else if IsWhitespace(name[0]) {
      assert (name + ['\r'])[1..] == name[1..] + ['\r'];
      PathTrailing(name[1..]);
    } else {
      assert (name + ['\r'])[0] == name[0];
      TrimEndTrailing(name, '\r');
    }
  }

  lemma {:induction false} LastLine(s: string)
    requires s != "" && s[|s| - 1] != '\n'
    ensures Lines(s) != [] && Lines(s + "\n") == StripLast(Lines(s))
    decreases |s|
  {
    var n := Find(s, IsNewline);
    if n == |s| {
      OnlyLine(s);
    } else {
      assert n + 1 < |s|;
      LastLine(s[n + 1..]);
      LineInFront(s, n);
    }
  }

  function StripLast(lines: seq<string>): seq<string>
    requires lines != []
  {
    lines[..|lines| - 1] + [StripCr(lines[|lines| - 1])]
  }

  lemma {:induction false} OnlyLine(s: string)
    requires s != "" && Find(s, IsNewline) == |s|
    ensures Lines(s) == [s] && Lines(s + "\n") == [StripCr(s)] && StripLast([s]) == [StripCr(s)]
  {
    FindAppend(s, "\n", IsNewline);
    assert (s + "\n")[..|s|] == s && (s + "\n")[|s| + 1..] == "";
    CutLine(s + "\n", |s|);
    assert [s][..0] == [];
  }

  lemma {:induction false} LineInFront(s: string, n: nat)
    requires n == Find(s, IsNewline) && n + 1 < |s| && Lines(s[n + 1..]) != []
    requires Lines(s[n + 1..] + "\n") == StripLast(Lines(s[n + 1..]))
    ensures Lines(s) != [] && Lines(s + "\n") == StripLast(Lines(s))
  {
    CutKept(s, "\n", n);
    CutLine(s, n);
    CutLine(s + "\n", n);
    LastOfMore(StripCr(s[..n]), Lines(s[n + 1..]));
  }

  lemma {:induction false} LastOfMore(first: string, rest: seq<string>)
    requires rest != []
    ensures StripLast([first] + rest) == [first] + StripLast(rest)
  {
  }

  /** A last line without its newline counts like any other. */
  lemma {:induction false} LastLineNeedsNoNewline(s: string, alnum: char -> bool)
    requires s != "" && s[|s| - 1] != '\n'
    ensures Parse(s + "\n", alnum) == Parse(s, alnum)
  {
    LastLine(s);
    var n := |Lines(s)| - 1;
    var front, last := Lines(s)[..n], Lines(s)[n];
    assert Lines(s) == front + [last];
    ScanSnoc(TOP, front, last, alnum);
    ScanSnoc(TOP, front, StripCr(last), alnum);
    StripsAlike(MoveOver(TOP, front), last, alnum);
  }
}
