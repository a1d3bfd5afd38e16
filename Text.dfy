/**
 * The two Python string splitters that `copy_dependencies` applies to the
 * output of `ldd`: `str.splitlines()` to cut it into lines and `str.split()`
 * (no separator argument) to cut a line into whitespace-separated tokens.
 */
module Text {

  /** The characters Python's `str.split()` treats as whitespace, by code point. */
  predicate IsSpace(c: char)
    ensures c == ' ' || c == '\t' ==> IsSpace(c)
    ensures 0x21 <= c as int <= 0x7E ==> !IsSpace(c)
  {
    var n := c as int;
    (0x09 <= n <= 0x0D) || (0x1C <= n <= 0x20) || n == 0x85 || n == 0xA0 || n == 0x1680 ||
    (0x2000 <= n <= 0x200A) || n == 0x2028 || n == 0x2029 || n == 0x202F || n == 0x205F || n == 0x3000
  }

  /** The characters at which Python's `str.splitlines()` ends a line, by code point. */
  predicate IsLineBreak(c: char)
    ensures c == '\n' || c == '\r' ==> IsLineBreak(c)
    ensures IsLineBreak(c) ==> IsSpace(c)
    ensures c == ' ' || c == '\t' ==> !IsLineBreak(c)
  {
    var n := c as int;
    (0x0A <= n <= 0x0D) || (0x1C <= n <= 0x1E) || n == 0x85 || n == 0x2028 || n == 0x2029
  }

  predicate NoSpace(w: string) {
    forall i :: 0 <= i < |w| ==> !IsSpace(w[i])
  }

  predicate AllSpace(w: string) {
    forall i :: 0 <= i < |w| ==> IsSpace(w[i])
  }

  /** A token as `str.split()` produces it: non-empty and free of whitespace. */
  predicate IsToken(w: string) {
    w != [] && NoSpace(w)
  }

  predicate AllTokens(ws: seq<string>) {
    forall i :: 0 <= i < |ws| ==> IsToken(ws[i])
  }

  predicate NoLineBreak(l: string) {
    forall i :: 0 <= i < |l| ==> !IsLineBreak(l[i])
  }

  predicate AllLines(lines: seq<string>) {
    forall i :: 0 <= i < |lines| ==> NoLineBreak(lines[i])
  }

  // ---------------------------------------------------------------- str.split()

  /** The number of leading whitespace characters. */
  function SpaceLength(s: string): (n: nat)
    ensures n <= |s|
    ensures n < |s| ==> !IsSpace(s[n])
    ensures AllSpace(s[..n])
  {
    if s == [] || !IsSpace(s[0]) then 0
    else
      var n := 1 + SpaceLength(s[1..]);
      assert s[..n] == [s[0]] + s[1..][..n - 1];
      n
  }

  /** The length of the longest prefix that contains no whitespace. */
  function WordLength(s: string): (n: nat)
    ensures n <= |s|
    ensures n < |s| ==> IsSpace(s[n])
    ensures NoSpace(s[..n])
  {
    if s == [] || IsSpace(s[0]) then 0
    else
      var n := 1 + WordLength(s[1..]);
      assert s[..n] == [s[0]] + s[1..][..n - 1];
      n
  }

  /** `s.split()`: the maximal runs of non-whitespace characters, in order. */
  function SplitWords(s: string): (ws: seq<string>)
    ensures AllTokens(ws)
    decreases |s|
  {
    var k := SpaceLength(s);
    if k == |s| then []
    else
      var n := WordLength(s[k..]);
      [s[k..][..n]] + SplitWords(s[k..][n..])
  }

  /** `" ".join(ws)`, used to state what `SplitWords` undoes. */
  function Unwords(ws: seq<string>): string {
    if ws == [] then ""
    else if |ws| == 1 then ws[0]
    else ws[0] + " " + Unwords(ws[1..])
  }

  lemma {:induction false} WordLengthOf(w: string, t: string)
    requires NoSpace(w)
    requires t == [] || IsSpace(t[0])
    ensures WordLength(w + t) == |w|
  {
    if w != [] {
      assert (w + t)[0] == w[0];
      assert (w + t)[1..] == w[1..] + t;
      WordLengthOf(w[1..], t);
    } else {
      assert w + t == t;
    }
  }

  /** Leading whitespace never changes the tokens of a line. */
  lemma SplitWordsDropsSpaceChar(c: char, s: string)
    requires IsSpace(c)
    ensures SplitWords([c] + s) == SplitWords(s)
  {
    assert ([c] + s)[1..] == s;
    assert SpaceLength([c] + s) == 1 + SpaceLength(s);
    assert ([c] + s)[1 + SpaceLength(s)..] == s[SpaceLength(s)..];
  }

  /** A leading run of whitespace of any length never changes the tokens. */
  lemma {:induction false} SplitWordsSkipsSpaces(sp: string, s: string)
    requires AllSpace(sp)
    ensures SplitWords(sp + s) == SplitWords(s)
  {
    if sp != [] {
      assert sp + s == [sp[0]] + (sp[1..] + s);
      SplitWordsDropsSpaceChar(sp[0], sp[1..] + s);
      SplitWordsSkipsSpaces(sp[1..], s);
    } else {
      assert sp + s == s;
    }
  }

  /** A line has no token at all exactly when it is made of whitespace only. */
  lemma SplitWordsEmpty(s: string)
    ensures SplitWords(s) == [] <==> AllSpace(s)
  {
    assert s[..|s|] == s;
  }

  /** A token followed by whitespace (or by nothing) is the first token. */
  lemma SplitWordsCons(w: string, rest: string)
    requires IsToken(w)
    requires rest == [] || IsSpace(rest[0])
    ensures SplitWords(w + rest) == [w] + SplitWords(rest)
  {
    var s := w + rest;
    assert s[0] == w[0];
    assert SpaceLength(s) == 0;
    assert s[0..] == s;
    WordLengthOf(w, rest);
    assert s[..|w|] == w;
    assert s[|w|..] == rest;
  }

  lemma SplitWordsSingle(w: string)
    requires IsToken(w)
    ensures SplitWords(Unwords([w])) == [w]
  {
    var e: string := [];
    assert Unwords([w]) == w;
    assert w + e == w;
    assert SplitWords(e) == [];
    SplitWordsCons(w, e);
  }

  /** Splitting undoes joining with single spaces: `" ".join(ws).split() == ws` for tokens `ws`. */
  lemma {:induction false} SplitUnwords(ws: seq<string>)
    requires AllTokens(ws)
    ensures SplitWords(Unwords(ws)) == ws
    decreases |ws|
  {
    if ws == [] {
      SplitWordsEmpty("");
    } else if |ws| == 1 {
      SplitWordsSingle(ws[0]);
      assert ws == [ws[0]];
    } else {
      AllTokensTail(ws);
      SplitUnwords(ws[1..]);
      SplitUnwordsStep(ws);
      assert [ws[0]] + ws[1..] == ws;
    }
  }

  lemma AllTokensTail(ws: seq<string>)
    requires AllTokens(ws) && ws != []
    ensures IsToken(ws[0]) && AllTokens(ws[1..])
  {
    forall i | 0 <= i < |ws[1..]| ensures IsToken(ws[1..][i]) {
      assert ws[1..][i] == ws[i + 1];
    }
  }

  lemma SplitUnwordsStep(ws: seq<string>)
    requires |ws| > 1 && IsToken(ws[0])
    ensures SplitWords(Unwords(ws)) == [ws[0]] + SplitWords(Unwords(ws[1..]))
  {
    var u := Unwords(ws[1..]);
    UnwordsCons(ws);
    SplitWordsCons(ws[0], [' '] + u);
    SplitWordsDropsSpaceChar(' ', u);
  }

  lemma UnwordsCons(ws: seq<string>)
    requires |ws| > 1
    ensures Unwords(ws) == ws[0] + ([' '] + Unwords(ws[1..]))
  {
    assert ws[0] + " " + Unwords(ws[1..]) == ws[0] + ([' '] + Unwords(ws[1..]));
  }

  // ---------------------------------------------------------- str.splitlines()

  /** The length of the first line, i.e. the index of the first line break. */
  function LineLength(s: string): (n: nat)
    ensures n <= |s|
    ensures n < |s| ==> IsLineBreak(s[n])
    ensures NoLineBreak(s[..n])
  {
    if s == [] || IsLineBreak(s[0]) then 0
    else
      var n := 1 + LineLength(s[1..]);
      assert s[..n] == [s[0]] + s[1..][..n - 1];
      n
  }

  /**
   * `s.splitlines()`: the lines of `s` without their terminators; `"\r\n"`
   * counts as one terminator and a final terminator opens no empty line.
   */
  function SplitLines(s: string): (lines: seq<string>)
    ensures AllLines(lines)
    ensures lines == [] <==> s == []
    decreases |s|
  {
    if s == [] then []
    else
      var n := LineLength(s);
      if n == |s| then (assert s[..n] == s; [s])
      else
        var skip := if s[n] == '\r' && n + 1 < |s| && s[n + 1] == '\n' then 2 else 1;
        [s[..n]] + SplitLines(s[n + skip..])
  }

  /** Each line followed by the same terminator, used to state what `SplitLines` undoes. */
  function Unlines(lines: seq<string>, eol: string): string {
    if lines == [] then "" else lines[0] + eol + Unlines(lines[1..], eol)
  }

  predicate IsLineEnd(eol: string) {
    eol == "\n" || eol == "\r\n" || eol == "\r"
  }

  lemma {:induction false} LineLengthOf(l: string, t: string)
    requires NoLineBreak(l)
    requires t != [] && IsLineBreak(t[0])
    ensures LineLength(l + t) == |l|
  {
    if l != [] {
      assert (l + t)[0] == l[0];
      assert (l + t)[1..] == l[1..] + t;
      LineLengthOf(l[1..], t);
    } else {
      assert l + t == t;
    }
  }

  /** A break-free line and its terminator come off as the first line. */
  lemma SplitLinesCons(l: string, eol: string, u: string)
    requires NoLineBreak(l)
    requires IsLineEnd(eol)
    requires eol == "\r" && u != [] ==> u[0] != '\n'
    ensures SplitLines(l + eol + u) == [l] + SplitLines(u)
  {
    LinePieces(l, eol, u);
    LineLengthOf(l, eol + u);
  }

  /** How `l + eol + u` is cut back into its three pieces. */
  lemma LinePieces(l: string, eol: string, u: string)
    requires IsLineEnd(eol)
    ensures var s := l + eol + u;
      && s == l + (eol + u)
      && (eol + u)[0] == eol[0]
      && |l| < |s| && s[..|l|] == l && s[|l|] == eol[0]
      && (|l| + 1 < |s| && s[|l| + 1] == '\n' <==> eol == "\r\n" || (eol == "\r" && u != [] && u[0] == '\n') || (eol == "\n" && u != [] && u[0] == '\n'))
      && s[|l| + |eol|..] == u
  {
    var s := l + eol + u;
    assert s[..|l|] == l;
    assert s[|l| + |eol|..] == u;
    if |eol| == 1 && u != [] { assert s[|l| + 1] == u[0]; }
  }

  /**
   * Splitting undoes terminating every line with `"\n"`, `"\r\n"` or `"\r"`,
   * so the lines `ldd` prints come back one for one.
   */
  lemma {:induction false} SplitUnlines(lines: seq<string>, eol: string)
    requires AllLines(lines)
    requires IsLineEnd(eol)
    ensures SplitLines(Unlines(lines, eol)) == lines
    decreases |lines|
  {
    if lines != [] {
      var u := Unlines(lines[1..], eol);
      AllLinesTail(lines);
      UnlinesStart(lines[1..], eol);
      SplitLinesCons(lines[0], eol, u);
      SplitUnlines(lines[1..], eol);
      assert [lines[0]] + lines[1..] == lines;
    }
  }

  lemma AllLinesTail(lines: seq<string>)
    requires AllLines(lines) && lines != []
    ensures NoLineBreak(lines[0]) && AllLines(lines[1..])
  {
    forall i | 0 <= i < |lines[1..]| ensures NoLineBreak(lines[1..][i]) {
      assert lines[1..][i] == lines[i + 1];
    }
  }

  /** Terminated lines never start with a line feed, so a `"\r"` before them is a terminator of its own. */
  lemma UnlinesStart(lines: seq<string>, eol: string)
    requires AllLines(lines)
    requires IsLineEnd(eol)
    ensures var u := Unlines(lines, eol); eol == "\r" && u != [] ==> u[0] != '\n'
  {
    if lines != [] {
      var l := lines[0];
      assert NoLineBreak(l);
      assert Unlines(lines, eol) == l + (eol + Unlines(lines[1..], eol));
      if l != [] {
        assert Unlines(lines, eol)[0] == l[0];
      } else {
        assert Unlines(lines, eol)[0] == eol[0];
      }
    }
  }
}
