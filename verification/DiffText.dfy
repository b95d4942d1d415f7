/**
 Which added lines leave a fingerprint, and which one, as a property of their text: white space counts
 for nothing but one byte between words, and a line needs a letter and more than three bytes.
 */
module DiffText {
  import opened Options
  import opened DiffParser

  /** The twenty-five characters with the Unicode property White_Space. */
  predicate ListedWhite(c: char)
  {
    var n := c as int;
    || n == 9 || n == 10 || n == 11 || n == 12 || n == 13 || n == 32 || n == 133 || n == 160 || n == 5760
    || n == 8192 || n == 8193 || n == 8194 || n == 8195 || n == 8196 || n == 8197 || n == 8198 || n == 8199
    || n == 8200 || n == 8201 || n == 8202 || n == 8232 || n == 8233 || n == 8239 || n == 8287 || n == 12288
  }

  lemma {:induction false} WhiteIsListed(c: char)
    ensures IsWhitespace(c) <==> ListedWhite(c)
  {
  }

  /** Bytes of a character in UTF-8. */
  function Width(c: char): nat
  {
    var n := c as int;
    if n >= 0x1_0000 then 4 else if n >= 0x800 then 3 else if n >= 0x80 then 2 else 1
  }

  /** Bytes of the characters that are not white. */
  function InkBytes(s: string): nat
  {
    if s == "" then 0 else (if IsWhitespace(s[0]) then 0 else Width(s[0])) + InkBytes(s[1..])
  }

  /** The first character is the last of a word. */
  predicate WordEnds(s: string)
  {
    s != "" && !IsWhitespace(s[0]) && (|s| == 1 || IsWhitespace(s[1]))
  }

  function WordCount(s: string): nat
  {
    if s == "" then 0 else (if WordEnds(s) then 1 else 0) + WordCount(s[1..])
  }

  /** The words of a line with single spaces between them. */
  function Squeeze(s: string): string
  {
    if s == "" then ""
    else if IsWhitespace(s[0]) then Squeeze(s[1..])
    else if WordEnds(s) && Squeeze(s[1..]) != "" then [s[0], ' '] + Squeeze(s[1..])
    else [s[0]] + Squeeze(s[1..])
  }

  predicate Letter(c: char, alnum: char -> bool)
  {
    alnum(c) || c == '_'
  }

  predicate HasLetter(s: string, alnum: char -> bool)
  {
    exists i | 0 <= i < |s| :: Letter(s[i], alnum)
  }

  predicate HasInkedLetter(s: string, alnum: char -> bool)
  {
    exists i | 0 <= i < |s| :: !IsWhitespace(s[i]) && Letter(s[i], alnum)
  }

  /**
   A line is effective if it has a letter, digit or underscore, and its words with one byte between them take
   more than three bytes.  The space itself is a letter only for a class that says so, which no real one does.
   */
  predicate Effective(line: string, alnum: char -> bool)
  {
    && (HasInkedLetter(line, alnum) || (alnum(' ') && WordCount(line) > 1))
    && InkBytes(line) + (if WordCount(line) == 0 then 0 else WordCount(line) - 1) > 3
  }

  // ---- the normal form is the squeezed line ----

  lemma {:induction false} WordsNotEmpty(s: string)
    ensures forall i | 0 <= i < |Words(s)| :: Words(s)[i] != ""
    decreases |s|
  {
    if s != "" {
      if IsWhitespace(s[0]) {
        WordsNotEmpty(s[1..]);
      } else {
        WordsNotEmpty(s[Find(s, IsWhitespace)..]);
      }
    }
  }

  /** A word with more than one character, without the first. */
  lemma {:induction false} WordsInside(s: string)
    requires |s| > 1 && !IsWhitespace(s[0]) && !IsWhitespace(s[1])
    ensures Words(s[1..]) != [] && Words(s) == [[s[0]] + Words(s[1..])[0]] + Words(s[1..])[1..]
  {
    var t := s[1..];
    var n := Find(t, IsWhitespace);
    assert Find(s, IsWhitespace) == n + 1;
    assert s[..n + 1] == [s[0]] + t[..n] && s[n + 1..] == t[n..];
  }

  lemma {:induction false} WordsAtEnd(s: string)
    requires WordEnds(s)
    ensures Words(s) == [[s[0]]] + Words(s[1..])
  {
    if |s| > 1 { assert Find(s[1..], IsWhitespace) == 0; }
    assert Find(s, IsWhitespace) == 1 && s[..1] == [s[0]];
  }

  lemma {:induction false} JoinGrows(first: char, words: seq<string>)
    requires words != []
    ensures Join([[first] + words[0]] + words[1..]) == [first] + Join(words)
  {
    var grown := [[first] + words[0]] + words[1..];
    if |words| > 1 {
      assert grown[1..] == words[1..];
      assert [first] + words[0] + " " + Join(words[1..]) == [first] + (words[0] + " " + Join(words[1..]));
    }
  }

  lemma {:induction false} JoinEmpty(words: seq<string>)
    requires forall i | 0 <= i < |words| :: words[i] != ""
    ensures Join(words) == "" <==> words == []
  {
    if words != [] { assert words[0] != ""; }
  }

  lemma {:induction false} SqueezeJoins(s: string)
    ensures Join(Words(s)) == Squeeze(s)
  {
    if s != "" {
      var rest := s[1..];
      SqueezeJoins(rest);
      if !IsWhitespace(s[0]) {
        if WordEnds(s) {
          WordsAtEnd(s);
          WordsNotEmpty(rest);
          JoinEmpty(Words(rest));
          assert ([[s[0]]] + Words(rest))[1..] == Words(rest);
          assert [s[0], ' '] + Join(Words(rest)) == [s[0]] + " " + Join(Words(rest));
          assert [s[0]] + "" == [s[0]];
        } else {
          WordsInside(s);
          JoinGrows(s[0], Words(rest));
        }
      }
    }
  }

  // ---- bytes and letters of the squeezed line ----

  lemma {:induction false} Utf8Cons(c: char, s: string)
    ensures Utf8Length([c] + s) == Width(c) + Utf8Length(s)
  {
    assert ([c] + s)[1..] == s;
  }

  lemma {:induction false} SqueezeBytes(s: string)
    ensures Squeeze(s) == "" <==> WordCount(s) == 0
    ensures Utf8Length(Squeeze(s)) == InkBytes(s) + if WordCount(s) == 0 then 0 else WordCount(s) - 1
  {
    if s != "" {
      var rest := s[1..];
      SqueezeBytes(rest);
      if !IsWhitespace(s[0]) {
        if WordEnds(s) && Squeeze(rest) != "" {
          assert [s[0], ' '] + Squeeze(rest) == [s[0]] + ([' '] + Squeeze(rest));
          Utf8Cons(' ', Squeeze(rest));
          Utf8Cons(s[0], [' '] + Squeeze(rest));
        } else {
          Utf8Cons(s[0], Squeeze(rest));
          if !WordEnds(s) { InsideAWord(s); }
        }
      }
    }
  }

  /** Behind a character that does not end its word comes the rest of the word. */
  lemma {:induction false} InsideAWord(s: string)
    requires |s| > 1 && !IsWhitespace(s[0]) && !WordEnds(s)
    ensures WordCount(s[1..]) > 0
    decreases |s|
  {
    var rest := s[1..];
    if !WordEnds(rest) { InsideAWord(rest); }
  }

  lemma {:induction false} LetterCons(c: char, s: string, alnum: char -> bool)
    ensures HasLetter([c] + s, alnum) <==> Letter(c, alnum) || HasLetter(s, alnum)
    ensures HasInkedLetter([c] + s, alnum)
       <==> (!IsWhitespace(c) && Letter(c, alnum)) || HasInkedLetter(s, alnum)
  {
    var t := [c] + s;
    forall i | 0 <= i < |s| ensures t[i + 1] == s[i] {}
    if Letter(c, alnum) { assert Letter(t[0], alnum); }
    if HasLetter(s, alnum) {
      var i :| 0 <= i < |s| && Letter(s[i], alnum);
      assert Letter(t[i + 1], alnum);
    }
    if HasInkedLetter(s, alnum) {
      var i :| 0 <= i < |s| && !IsWhitespace(s[i]) && Letter(s[i], alnum);
      assert Letter(t[i + 1], alnum);
    }
  }

  lemma {:induction false} SqueezeLetters(s: string, alnum: char -> bool)
    ensures HasLetter(Squeeze(s), alnum) <==> HasInkedLetter(s, alnum) || (alnum(' ') && WordCount(s) > 1)
  {
    if s != "" {
      var rest := s[1..];
      SqueezeLetters(rest, alnum);
      SqueezeBytes(rest);
      assert s == [s[0]] + rest;
      LetterCons(s[0], rest, alnum);
      if !IsWhitespace(s[0]) {
        if WordEnds(s) && Squeeze(rest) != "" {
          assert [s[0], ' '] + Squeeze(rest) == [s[0]] + ([' '] + Squeeze(rest));
          LetterCons(' ', Squeeze(rest), alnum);
          LetterCons(s[0], [' '] + Squeeze(rest), alnum);
        } else {
          LetterCons(s[0], Squeeze(rest), alnum);
        }
      }
    }
  }

  /** A line leaves a fingerprint exactly if it is effective, and then that of its words, singly spaced. */
  lemma {:induction false} FingerprintIffEffective(line: string, alnum: char -> bool)
    ensures NormalizeLine(line, alnum) == if Effective(line, alnum) then Some(Squeeze(line)) else None
  {
    SqueezeJoins(line);
    SqueezeBytes(line);
    SqueezeLetters(line, alnum);
    if HasLetter(Squeeze(line), alnum) {
      var i :| 0 <= i < |Squeeze(line)| && Letter(Squeeze(line)[i], alnum);
      assert alnum(Squeeze(line)[i]) || Squeeze(line)[i] == '_';
    }
  }

  // ---- trimming ----

  predicate AllWhite(s: string)
  {
    forall i | 0 <= i < |s| :: IsWhitespace(s[i])
  }

  /** Trimming the end takes off all white space there and nothing else. */
  lemma {:induction false} TrimEndLaw(s: string)
    ensures TrimEnd(s) <= s && AllWhite(s[|TrimEnd(s)|..])
    ensures TrimEnd(s) == "" || !IsWhitespace(TrimEnd(s)[|TrimEnd(s)| - 1])
  {
    if s != "" && IsWhitespace(s[|s| - 1]) { TrimEndLaw(s[..|s| - 1]); }
  }

  lemma {:induction false} TrimStartLaw(s: string)
    ensures |TrimStart(s)| <= |s| && TrimStart(s) == s[|s| - |TrimStart(s)|..]
    ensures AllWhite(s[..|s| - |TrimStart(s)|])
    ensures TrimStart(s) == "" || !IsWhitespace(TrimStart(s)[0])
  {
    if s != "" && IsWhitespace(s[0]) { TrimStartLaw(s[1..]); }
  }

  /**
   The path a header names: what stands between white space, without an `a/` or `b/` in front, and none
   for the null device. A blank header names the empty path.
   */
  lemma {:induction false} HeaderPathLaw(before: string, name: string, after: string)
    requires AllWhite(before) && AllWhite(after)
    requires name != "" ==> !IsWhitespace(name[0]) && !IsWhitespace(name[|name| - 1])
    ensures
      NormalizePath(before + name + after)
      == if name == "/dev/null" then None
         else if |name| >= 2 && (name[0] == 'a' || name[0] == 'b') && name[1] == '/' then Some(name[2..])
         else Some(name)
  {
    if name == "" {
      assert before + name + after == before + after;
      TrimsBlank(before + after);
    } else {
      TrimsTo(before, name, after);
    }
    if |name| >= 2 && name[1] == '/' {
      assert name[0] == 'a' ==> name[..2] == "a/";
      assert name[0] == 'b' ==> name[..2] == "b/";
    }
  }

  lemma {:induction false} TrimsBlank(s: string)
    requires AllWhite(s)
    ensures Trim(s) == ""
  {
    if s != "" { TrimsBlank(s[1..]); }
  }

  lemma {:induction false} TrimsTo(before: string, name: string, after: string)
    requires AllWhite(before) && AllWhite(after)
    requires name != "" && !IsWhitespace(name[0]) && !IsWhitespace(name[|name| - 1])
    ensures Trim(before + name + after) == name
    decreases |before|, |after|
  {
    var whole := before + name + after;
    if before != "" {
      assert whole[0] == before[0] && whole[1..] == before[1..] + name + after;
      TrimsTo(before[1..], name, after);
    } else {
      assert whole == name + after && whole[0] == name[0];
      TrimsEnd(name, after);
    }
  }

  lemma {:induction false} TrimsEnd(name: string, after: string)
    requires AllWhite(after) && name != "" && !IsWhitespace(name[|name| - 1])
    ensures TrimEnd(name + after) == name
  {
    if after == "" {
      assert name + after == name;
    } else {
      var n := |after| - 1;
      assert (name + after)[..|name| + n] == name + after[..n] && (name + after)[|name| + n] == after[n];
      TrimsEnd(name, after[..n]);
    }
  }
}
