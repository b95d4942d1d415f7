/**
 Accepted-line fingerprints from a unified diff (codex-rs/analytics/src/accepted_lines.rs).

 The SHA-1 of the path and of the line is left off: a fingerprint is the pair that gets hashed.
 `char::is_alphanumeric` is a parameter.
 */
module DiffParser {
  import opened Options

  datatype Fingerprint = Fingerprint(path: string, line: string)

  datatype Summary = Summary(added: nat, deleted: nat, fingerprints: seq<Fingerprint>)

  const EMPTY := Summary(0, 0, [])

  function Sum(a: Summary, b: Summary): Summary
  {
    Summary(a.added + b.added, a.deleted + b.deleted, a.fingerprints + b.fingerprints)
  }

  // ---- text ----

  /** The Unicode property White_Space, as `str::trim` and `str::split_whitespace` use it. */
  predicate IsWhitespace(c: char)
  {
    var n := c as int;
    || 0x09 <= n <= 0x0D || n == 0x20 || n == 0x85 || n == 0xA0 || n == 0x1680
    || 0x2000 <= n <= 0x200A || n == 0x2028 || n == 0x2029 || n == 0x202F || n == 0x205F || n == 0x3000
  }

  function Utf8Length(s: string): nat
  {
    if s == "" then 0
    else
      var n := s[0] as int;
      (if n < 0x80 then 1 else if n < 0x800 then 2 else if n < 0x10000 then 3 else 4) + Utf8Length(s[1..])
  }

  predicate StartsWith(s: string, prefix: string)
  {
    prefix <= s
  }

  function TrimStart(s: string): string
  {
    if s != "" && IsWhitespace(s[0]) then TrimStart(s[1..]) else s
  }

  function TrimEnd(s: string): string
  {
    if s != "" && IsWhitespace(s[|s| - 1]) then TrimEnd(s[..|s| - 1]) else s
  }

  function Trim(s: string): string
  {
    TrimEnd(TrimStart(s))
  }

  /** Where the first character satisfying `p` is, or the length. */
  function Find(s: string, p: char -> bool): (n: nat)
    ensures n <= |s|
    ensures forall i | 0 <= i < n :: !p(s[i])
    ensures n < |s| ==> p(s[n])
  {
    if s == "" || p(s[0]) then 0 else 1 + Find(s[1..], p)
  }

  /** `str::split_whitespace` */
  function Words(s: string): seq<string>
    decreases |s|
  {
    if s == "" then []
    else if IsWhitespace(s[0]) then Words(s[1..])
    else
      var n := Find(s, IsWhitespace);
      [s[..n]] + Words(s[n..])
  }

  /** `join(" ")` */
  function Join(words: seq<string>): string
  {
    if words == [] then ""
    else if |words| == 1 then words[0]
    else words[0] + " " + Join(words[1..])
  }

  function StripCr(s: string): string
  {
    if s != "" && s[|s| - 1] == '\r' then s[..|s| - 1] else s
  }

  predicate IsNewline(c: char)
  {
    c == '\n'
  }

  /** `str::lines`: a line loses its newline and one carriage return before it. */
  function Lines(s: string): seq<string>
    decreases |s|
  {
    if s == "" then []
    else
      var n := Find(s, IsNewline);
      if n == |s| then [s] else [StripCr(s[..n])] + Lines(s[n + 1..])
  }

  // ---- the parser ----

  function NormalizePath(name: string): Option<string>
  {
    var path := Trim(name);
    if path == "/dev/null" then None
    else if StartsWith(path, "b/") || StartsWith(path, "a/") then Some(path[2..])
    else Some(path)
  }

  function NormalizeLine(line: string, alnum: char -> bool): Option<string>
  {
    var normalized := Join(Words(line));
    if Utf8Length(normalized) <= 3 then None
    else if !exists i | 0 <= i < |normalized| :: alnum(normalized[i]) || normalized[i] == '_' then None
    else Some(normalized)
  }

  /** What the loop carries from line to line, besides the summary. */
  datatype Cursor = Cursor(path: Option<string>, inHunk: bool)

  const TOP := Cursor(None, false)

  function MoveCursor(c: Cursor, line: string): Cursor
  {
    if StartsWith(line, "diff --git ") then TOP
    else if StartsWith(line, "@@ ") then c.(inHunk := true)
    else if !c.inHunk && StartsWith(line, "+++ ") then c.(path := NormalizePath(line[4..]))
    else c
  }

  /** What one line contributes. */
  function Contribution(c: Cursor, line: string, alnum: char -> bool): Summary
  {
    if StartsWith(line, "diff --git ") || StartsWith(line, "@@ ") then EMPTY
    else if !c.inHunk && (StartsWith(line, "+++ ") || StartsWith(line, "--- ")) then EMPTY
    else if StartsWith(line, "+") then
      var normalized := NormalizeLine(line[1..], alnum);
      Summary(1, 0, if c.path.Some? && normalized.Some? then [Fingerprint(c.path.value, normalized.value)] else [])
    else if StartsWith(line, "-") then Summary(0, 1, [])
    else EMPTY
  }

  function Scan(c: Cursor, lines: seq<string>, alnum: char -> bool): Summary
    decreases |lines|
  {
    if lines == [] then EMPTY
    else Sum(Contribution(c, lines[0], alnum), Scan(MoveCursor(c, lines[0]), lines[1..], alnum))
  }

  function Parse(diff: string, alnum: char -> bool): Summary
  {
    Scan(TOP, Lines(diff), alnum)
  }

  lemma SumZero(a: Summary)
    ensures Sum(EMPTY, a) == a && Sum(a, EMPTY) == a
  {
  }

  lemma SumAssoc(a: Summary, b: Summary, c: Summary)
    ensures Sum(Sum(a, b), c) == Sum(a, Sum(b, c))
  {
  }

  /** `accepted_line_fingerprints_from_unified_diff` */
  method AcceptedLineFingerprints(diff: string, alnum: char -> bool) returns (summary: Summary)
    ensures summary == Parse(diff, alnum)
  {
    var currentPath: Option<string> := None;
    var inHunk := false;
    var added, deleted := 0, 0;
    var fingerprints: seq<Fingerprint> := [];
    var lines := Lines(diff);

    for i := 0 to |lines|
      invariant Parse(diff, alnum)
             == Sum(Summary(added, deleted, fingerprints), Scan(Cursor(currentPath, inHunk), lines[i..], alnum))
    {
      var line := lines[i];
      assert lines[i..][0] == line && lines[i..][1..] == lines[i + 1..];
      SumAssoc(Summary(added, deleted, fingerprints), Contribution(Cursor(currentPath, inHunk), line, alnum),
               Scan(MoveCursor(Cursor(currentPath, inHunk), line), lines[i + 1..], alnum));
      SumZero(Summary(added, deleted, fingerprints));
      if StartsWith(line, "diff --git ") {
        currentPath := None;
        inHunk := false;
        continue;
      }
      if StartsWith(line, "@@ ") {
        inHunk := true;
        continue;
      }
      if !inHunk && StartsWith(line, "+++ ") {
        currentPath := NormalizePath(line[4..]);
        continue;
      }
      if !inHunk && StartsWith(line, "--- ") {
        continue;
      }
      if StartsWith(line, "+") {
        added := added + 1;
        var normalized := NormalizeLine(line[1..], alnum);
        if currentPath.Some? && normalized.Some? {
          fingerprints := fingerprints + [Fingerprint(currentPath.value, normalized.value)];
        }
        continue;
      }
      if StartsWith(line, "-") {
        deleted := deleted + 1;
      }
    }
    assert lines[|lines|..] == [];
    SumZero(Summary(added, deleted, fingerprints));
    summary := Summary(added, deleted, fingerprints);
  }
}
