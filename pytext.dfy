/**
 * The three Python string operations both applications rely on, over
 * `string` (a sequence of Unicode scalar values):
 *   - `str.strip()` with no argument (Strip),
 *   - `str.splitlines()` without `keepends` (SplitLines, LineCount),
 *   - `str.split()` with no argument (Words, WordCount).
 */
module PyText {

  /** The characters for which Python's `str.isspace` holds: those whose
      bidirectional class is WS, B or S, or whose category is Zs. This is
      the set that `strip()` and `split()` with no argument remove. */
  const SpaceChars: set<char> := {
    ' ', '\t', '\n', '\U{B}', '\U{C}', '\r', '\U{1C}', '\U{1D}', '\U{1E}', '\U{1F}',
    '\U{85}', '\U{A0}', '\U{1680}',
    '\U{2000}', '\U{2001}', '\U{2002}', '\U{2003}', '\U{2004}', '\U{2005}',
    '\U{2006}', '\U{2007}', '\U{2008}', '\U{2009}', '\U{200A}',
    '\U{2028}', '\U{2029}', '\U{202F}', '\U{205F}', '\U{3000}'
  }

  /** The line boundaries of `str.splitlines`: \n, \r, \v, \f, \x1c, \x1d,
      \x1e, \x85, U+2028 and U+2029 (the pair \r\n counts as one boundary). */
  const LineBreakChars: set<char> := {
    '\n', '\r', '\U{B}', '\U{C}', '\U{1C}', '\U{1D}', '\U{1E}', '\U{85}', '\U{2028}', '\U{2029}'
  }

  predicate IsSpace(c: char) {
    c in SpaceChars
  }

  predicate IsLineBreak(c: char) {
    c in LineBreakChars
  }

  predicate AllSpace(s: string) {
    forall i :: 0 <= i < |s| ==> IsSpace(s[i])
  }

  predicate NoSpace(s: string) {
    forall i :: 0 <= i < |s| ==> !IsSpace(s[i])
  }

  predicate NoLineBreak(s: string) {
    forall i :: 0 <= i < |s| ==> !IsLineBreak(s[i])
  }

  /** Neither end of `s` is whitespace: what `strip()` leaves. */
  predicate IsStripped(s: string) {
    s == [] || (!IsSpace(s[0]) && !IsSpace(s[|s| - 1]))
  }

  // ---------------------------------------------------------------------
  // strip()
  // ---------------------------------------------------------------------

  /** `s.lstrip()`: `s` without its leading whitespace. */
  function TrimLeft(s: string): (r: string)
    ensures |r| <= |s|
    ensures r == [] || !IsSpace(r[0])
  {
    if s != [] && IsSpace(s[0]) then TrimLeft(s[1..]) else s
  }

  /** What `lstrip()` keeps is a suffix of `s`, and what it drops is
      whitespace. */
  lemma {:induction false} TrimLeftSplits(s: string)
    ensures var r := TrimLeft(s);
            r == s[|s| - |r|..] && AllSpace(s[..|s| - |r|])
  {
    if s != [] && IsSpace(s[0]) {
      var r := TrimLeft(s[1..]);
      TrimLeftSplits(s[1..]);
      assert s[|s| - |r|..] == s[1..][|s| - 1 - |r|..];
      assert s[..|s| - |r|] == [s[0]] + s[1..][..|s| - 1 - |r|];
    }
  }

  /** `s.rstrip()`: `s` without its trailing whitespace. */
  function TrimRight(s: string): (r: string)
    ensures |r| <= |s|
    ensures r == [] || !IsSpace(r[|r| - 1])
  {
    if s != [] && IsSpace(s[|s| - 1]) then TrimRight(s[..|s| - 1]) else s
  }

  /** What `rstrip()` keeps is a prefix of `s`, and what it drops is
      whitespace. */
  lemma {:induction false} TrimRightSplits(s: string)
    ensures var r := TrimRight(s);
            r == s[..|r|] && AllSpace(s[|r|..])
  {
    if s != [] && IsSpace(s[|s| - 1]) {
      var r := TrimRight(s[..|s| - 1]);
      TrimRightSplits(s[..|s| - 1]);
      assert s[..|r|] == s[..|s| - 1][..|r|];
      assert s[|r|..] == s[..|s| - 1][|r|..] + [s[|s| - 1]];
    }
  }

  /** `s.strip()`: `s` without its leading and its trailing whitespace. */
  function Strip(s: string): (r: string)
    ensures |r| <= |s|
    ensures IsStripped(r)
  {
    var l := TrimLeft(s);
    var r := TrimRight(l);
    TrimRightSplits(l);
    assert r != [] ==> r[0] == l[0];
    r
  }

  /** What `strip()` keeps is a middle slice of `s`: only whitespace is
      cut from either end. */
  lemma StripIsSlice(s: string)
    ensures exists i, j :: 0 <= i <= j <= |s| && Strip(s) == s[i..j] && AllSpace(s[..i]) && AllSpace(s[j..])
  {
    var l := TrimLeft(s);
    TrimLeftSplits(s);
    TrimRightSplits(l);
    var i := |s| - |l|;
    var j := i + |TrimRight(l)|;
    assert Strip(s) == s[i..j];
    assert s[j..] == l[|TrimRight(l)|..];
  }

  /** The test `s.strip() == ""` that guards every form field. */
  predicate IsBlank(s: string) {
    Strip(s) == ""
  }

  /** A string is blank exactly when every character of it is whitespace. */
  lemma BlankIffAllSpace(s: string)
    ensures IsBlank(s) <==> AllSpace(s)
  {
    var l := TrimLeft(s);
    TrimLeftSplits(s);
    TrimRightSplits(l);
    if !AllSpace(s) {
      assert l != [];
      var t := TrimRight(l);
      if t == [] {
        assert false;
      }
    }
  }

  /** Stripping twice is stripping once. */
  lemma StripIdempotent(s: string)
    ensures Strip(Strip(s)) == Strip(s)
  {
    var r := Strip(s);
    if r != [] {
      TrimRightSplits(r);
      assert TrimLeft(r) == r;
      assert TrimRight(r) == r;
    }
  }

  // ---------------------------------------------------------------------
  // splitlines()
  // ---------------------------------------------------------------------

  /** The scan behind `splitlines()`: `cur` is the line read so far. A
      boundary closes the current line (even an empty one); at the end of
      the text an unfinished non-empty line is closed, an empty one is not. */
  function LinesFrom(s: string, cur: string): (lines: seq<string>)
    requires NoLineBreak(cur)
    ensures forall k :: 0 <= k < |lines| ==> NoLineBreak(lines[k])
    decreases |s|
  {
    if s == [] then
      if cur == [] then [] else [cur]
    else if s[0] == '\r' && |s| >= 2 && s[1] == '\n' then
      [cur] + LinesFrom(s[2..], [])
    else if IsLineBreak(s[0]) then
      [cur] + LinesFrom(s[1..], [])
    else
      LinesFrom(s[1..], cur + [s[0]])
  }

  /** `s.splitlines()`. */
  function SplitLines(s: string): (lines: seq<string>)
    ensures forall k :: 0 <= k < |lines| ==> NoLineBreak(lines[k])
  {
    LinesFrom(s, [])
  }

  /** `len(s.splitlines())`. */
  function LineCount(s: string): nat {
    |SplitLines(s)|
  }

  /** The lines joined back, each followed by "\n". */
  function Terminated(lines: seq<string>): string {
    if lines == [] then "" else lines[0] + "\n" + Terminated(lines[1..])
  }

  lemma {:induction false} LinesFromLine(line: string, rest: string, cur: string)
    requires NoLineBreak(line) && NoLineBreak(cur)
    ensures LinesFrom(line + "\n" + rest, cur) == [cur + line] + LinesFrom(rest, [])
    decreases |line|
  {
    var s := line + "\n" + rest;
    if line == [] {
      assert s == "\n" + rest;
      assert s[1..] == rest;
      assert cur + line == cur;
    } else {
      assert s[0] == line[0];
      assert s[1..] == line[1..] + "\n" + rest;
      assert !IsLineBreak(line[0]);
      LinesFromLine(line[1..], rest, cur + [line[0]]);
      assert (cur + [line[0]]) + line[1..] == cur + line;
    }
  }

  /** Round trip: splitting "\n"-terminated lines gives the lines back. */
  lemma {:induction false} SplitTerminated(lines: seq<string>)
    requires forall k :: 0 <= k < |lines| ==> NoLineBreak(lines[k])
    ensures SplitLines(Terminated(lines)) == lines
  {
    if lines != [] {
      LinesFromLine(lines[0], Terminated(lines[1..]), []);
      SplitTerminated(lines[1..]);
      assert [] + lines[0] == lines[0];
    }
  }

  lemma {:induction false} LinesFromTrailingBreak(s: string, cur: string)
    requires NoLineBreak(cur)
    requires (s != [] && !IsLineBreak(s[|s| - 1])) || (s == [] && cur != [])
    ensures LinesFrom(s + "\n", cur) == LinesFrom(s, cur)
    decreases |s|
  {
    var t := s + "\n";
    if s == [] {
      assert t[1..] == [];
    } else if s[0] == '\r' && |s| >= 2 && s[1] == '\n' {
      assert t[2..] == s[2..] + "\n";
      LinesFromTrailingBreak(s[2..], []);
    } else if IsLineBreak(s[0]) {
      assert t[1..] == s[1..] + "\n";
      LinesFromTrailingBreak(s[1..], []);
    } else {
      assert t[1..] == s[1..] + "\n";
      LinesFromTrailingBreak(s[1..], cur + [s[0]]);
    }
  }

  /** A final "\n" after an unterminated last line adds no empty line:
      "a\nb" and "a\nb\n" both have two lines. */
  lemma TrailingNewlineAddsNoLine(s: string)
    requires s != [] && !IsLineBreak(s[|s| - 1])
    ensures LineCount(s + "\n") == LineCount(s)
    ensures SplitLines(s + "\n") == SplitLines(s)
  {
    LinesFromTrailingBreak(s, []);
  }

  // ---------------------------------------------------------------------
  // split()
  // ---------------------------------------------------------------------

  /** The scan behind `split()`: `cur` is the word read so far. Whitespace
      closes a non-empty word; runs of whitespace yield nothing. */
  function WordsFrom(s: string, cur: string): (words: seq<string>)
    requires NoSpace(cur)
    ensures forall k :: 0 <= k < |words| ==> words[k] != [] && NoSpace(words[k])
    decreases |s|
  {
    if s == [] then
      if cur == [] then [] else [cur]
    else if IsSpace(s[0]) then
      if cur == [] then WordsFrom(s[1..], []) else [cur] + WordsFrom(s[1..], [])
    else
      WordsFrom(s[1..], cur + [s[0]])
  }

  /** `s.split()`: the maximal runs of non-whitespace characters. */
  function Words(s: string): (words: seq<string>)
    ensures forall k :: 0 <= k < |words| ==> words[k] != [] && NoSpace(words[k])
  {
    WordsFrom(s, [])
  }

  /** `len(s.split())`. */
  function WordCount(s: string): nat {
    |Words(s)|
  }

  /** The words joined back, each followed by one space. */
  function Spaced(words: seq<string>): string {
    if words == [] then "" else words[0] + " " + Spaced(words[1..])
  }

  lemma {:induction false} WordsFromWord(word: string, rest: string, cur: string)
    requires NoSpace(word) && NoSpace(cur) && cur + word != []
    ensures WordsFrom(word + " " + rest, cur) == [cur + word] + WordsFrom(rest, [])
    decreases |word|
  {
    var s := word + " " + rest;
    if word == [] {
      assert s == " " + rest;
      assert s[1..] == rest;
      assert cur + word == cur;
    } else {
      assert s[0] == word[0];
      assert s[1..] == word[1..] + " " + rest;
      assert !IsSpace(word[0]);
      WordsFromWord(word[1..], rest, cur + [word[0]]);
      assert (cur + [word[0]]) + word[1..] == cur + word;
    }
  }

  /** Round trip: splitting space-separated words gives the words back. */
  lemma {:induction false} SplitSpaced(words: seq<string>)
    requires forall k :: 0 <= k < |words| ==> words[k] != [] && NoSpace(words[k])
    ensures Words(Spaced(words)) == words
  {
    if words != [] {
      WordsFromWord(words[0], Spaced(words[1..]), []);
      SplitSpaced(words[1..]);
      assert [] + words[0] == words[0];
    }
  }

  lemma {:induction false} WordsFromAllSpace(s: string)
    ensures AllSpace(s) <==> WordsFrom(s, []) == []
    decreases |s|
  {
    if s != [] {
      WordsFromAllSpace(s[1..]);
      if !IsSpace(s[0]) {
        assert [] + [s[0]] == [s[0]];
        WordsFromNonEmpty(s[1..], [s[0]]);
      }
    }
  }

  lemma {:induction false} WordsFromNonEmpty(s: string, cur: string)
    requires NoSpace(cur) && cur != []
    ensures WordsFrom(s, cur) != []
    decreases |s|
  {
    if s != [] && !IsSpace(s[0]) {
      WordsFromNonEmpty(s[1..], cur + [s[0]]);
    }
  }

  /** A text has no words exactly when it is all whitespace. */
  lemma NoWordsIffAllSpace(s: string)
    ensures WordCount(s) == 0 <==> AllSpace(s)
  {
    WordsFromAllSpace(s);
  }
}
