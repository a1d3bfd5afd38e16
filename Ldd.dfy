/**
 * Choosing the library path from one line of `ldd` output. `ldd` prints
 * either `name => path (address)` or a bare `path (address)` per library,
 * `name => not found` for an unresolved one, and a bare `name (address)` for
 * the kernel-provided vDSO.
 */
module Ldd {
  import opened Wrappers
  import opened Text
  import opened Paths

  const ARROW: string := "=>"

  /**
   * What `subprocess.run(['ldd', binary], capture_output=True, text=True)`
   * gives back: the decoded standard output (whatever the exit status), or
   * the exception it raises when `ldd` is not installed, cannot be run, or
   * writes output that does not decode. A non-zero exit status raises
   * nothing: its output is scanned like any other.
   */
  datatype LddRun = LddOutput(stdout: string) | LddNotFound | LddFailed

  /**
   * The path `copy_dependencies` takes from a line: the third token when one
   * of the tokens is `=>`, otherwise the first. `None` is the IndexError the
   * source raises when that token does not exist.
   */
  function SelectLibrary(line: string): (r: Option<Path>)
    ensures var parts := SplitWords(line);
      && (r.None? <==> parts == [] || (ARROW in parts && |parts| < 3))
      && (r.Some? && ARROW in parts ==> r.value == parts[2])
      && (r.Some? && ARROW !in parts ==> r.value == parts[0])
      && (r.Some? ==> IsToken(r.value) && r.value in parts)
  {
    var parts := SplitWords(line);
    if ARROW in parts then
      if |parts| >= 3 then Some(parts[2]) else None
    else if parts != [] then Some(parts[0])
    else None
  }

  /** The tokens of a tab-indented line made of single-space-separated tokens. */
  lemma TokensOfLine(ws: seq<string>)
    requires AllTokens(ws)
    ensures SplitWords("\t" + Unwords(ws)) == ws
  {
    SplitWordsDropsSpaceChar('\t', Unwords(ws));
    assert "\t" + Unwords(ws) == ['\t'] + Unwords(ws);
    SplitUnwords(ws);
  }

  /** `name => path (address)`: the resolved path is chosen. */
  lemma ResolvedLine(name: string, path: string, address: string)
    requires IsToken(name) && IsToken(path) && IsToken(address)
    ensures SelectLibrary("\t" + name + " => " + path + " " + address) == Some(path)
  {
    var ws := [name, ARROW, path, address];
    assert Unwords(ws) == name + " " + (ARROW + " " + (path + " " + address)) by {
      assert Unwords(ws[3..]) == address;
      assert Unwords(ws[2..]) == path + " " + address;
      assert Unwords(ws[1..]) == ARROW + " " + (path + " " + address);
    }
    assert "\t" + name + " => " + path + " " + address == "\t" + Unwords(ws);
    TokensOfLine(ws);
    assert ws[1] == ARROW;
  }

  /**
   * A bare `path (address)` line, as `ldd` prints for the dynamic loader and
   * for the vDSO: the first token is chosen.
   */
  lemma BareLine(path: string, address: string)
    requires IsToken(path) && IsToken(address)
    requires path != ARROW && address != ARROW
    ensures SelectLibrary("\t" + path + " " + address) == Some(path)
  {
    var ws := [path, address];
    assert Unwords(ws) == path + " " + address by {
      assert Unwords(ws[1..]) == address;
    }
    assert "\t" + path + " " + address == "\t" + Unwords(ws);
    TokensOfLine(ws);
    assert ARROW !in ws;
  }

  /**
   * `name => not found`: the word `not` is chosen, which normally does not
   * exist as a file and so is skipped.
   */
  lemma NotFoundLine(name: string)
    requires IsToken(name)
    ensures SelectLibrary("\t" + name + " => not found") == Some("not")
  {
    var ws := [name, ARROW, "not", "found"];
    assert AllTokens(ws) by {
      assert IsToken("not") && IsToken("found") && IsToken(ARROW);
    }
    assert Unwords(ws) == name + " " + (ARROW + " " + ("not" + " " + "found")) by {
      assert Unwords(ws[3..]) == "found";
      assert Unwords(ws[2..]) == "not" + " " + "found";
      assert Unwords(ws[1..]) == ARROW + " " + ("not" + " " + "found");
    }
    assert "\t" + name + " => not found" == "\t" + Unwords(ws);
    TokensOfLine(ws);
    assert ws[1] == ARROW;
  }

  /** A line with `=>` but nothing after it has no third token: the IndexError case. */
  lemma DanglingArrowLine(name: string)
    requires IsToken(name)
    ensures SelectLibrary("\t" + name + " =>") == None
  {
    var ws := [name, ARROW];
    assert IsToken(ARROW);
    assert Unwords(ws) == name + " " + ARROW by {
      assert Unwords(ws[1..]) == ARROW;
    }
    assert "\t" + name + " =>" == "\t" + Unwords(ws);
    TokensOfLine(ws);
    assert ws[1] == ARROW;
  }

  /** A blank or whitespace-only line has no first token: the IndexError case. */
  lemma BlankLine(line: string)
    requires AllSpace(line)
    ensures SelectLibrary(line) == None
  {
    SplitWordsEmpty(line);
  }
}
