/**
 * The POSIX path-string operations the launcher relies on: `str.lstrip('/')`,
 * `os.path.join`, `os.path.basename` and `os.path.dirname`, on plain strings.
 * No normalisation is done (as in Python, `"a//b"` and `"a/b"` stay different strings).
 */
module Paths {

  type Path = string

  predicate StartsWith(s: string, prefix: string) {
    |prefix| <= |s| && s[..|prefix|] == prefix
  }

  predicate EndsWith(s: string, suffix: string) {
    |suffix| <= |s| && s[|s| - |suffix|..] == suffix
  }

  /** True when `s` begins with a slash, i.e. is an absolute path. */
  predicate IsAbsolute(s: string) {
    s != [] && s[0] == '/'
  }

  /** `s.lstrip('/')`: every leading slash removed, the rest kept verbatim. */
  function LStripSlash(s: string): (r: string)
    ensures EndsWith(s, r)
    ensures !IsAbsolute(r)
  {
    if IsAbsolute(s) then LStripSlash(s[1..]) else s
  }

  /** What `LStripSlash` removes is slashes only. */
  lemma {:induction false} LStripSlashRemovesSlashes(s: string)
    ensures forall i :: 0 <= i < |s| - |LStripSlash(s)| ==> s[i] == '/'
    decreases |s|
  {
    if IsAbsolute(s) {
      var t := s[1..];
      LStripSlashRemovesSlashes(t);
      assert LStripSlash(s) == LStripSlash(t);
      forall i | 1 <= i < |s| - |LStripSlash(s)| ensures s[i] == '/' {
        assert s[i] == t[i - 1];
      }
    }
  }

  /** `s.rstrip('/')`: every trailing slash removed. */
  function RStripSlash(s: string): (r: string)
    ensures StartsWith(s, r)
    ensures r == [] || r[|r| - 1] != '/'
  {
    if s != [] && s[|s| - 1] == '/' then RStripSlash(s[..|s| - 1]) else s
  }

  /** What `RStripSlash` removes is slashes only. */
  lemma {:induction false} RStripSlashRemovesSlashes(s: string)
    ensures forall i :: |RStripSlash(s)| <= i < |s| ==> s[i] == '/'
    decreases |s|
  {
    if s != [] && s[|s| - 1] == '/' {
      RStripSlashRemovesSlashes(s[..|s| - 1]);
    }
  }

  /**
   * `os.path.join(a, b)` for two components: an absolute `b` replaces `a`;
   * otherwise `b` is placed after `a`, with one slash in between unless `a`
   * is empty or already ends in a slash.
   */
  function Join(a: Path, b: Path): (r: Path)
    ensures IsAbsolute(b) ==> r == b
    ensures !IsAbsolute(b) ==> StartsWith(r, a) && EndsWith(r, b)
    ensures !IsAbsolute(b) && (a == [] || a[|a| - 1] == '/') ==> |r| == |a| + |b|
    ensures !IsAbsolute(b) && a != [] && a[|a| - 1] != '/' ==> |r| == |a| + 1 + |b| && r[|a|] == '/'
  {
    if IsAbsolute(b) then b
    else if a == [] || a[|a| - 1] == '/' then a + b
    else a + "/" + b
  }

  /**
   * `os.path.join(dir, "")`: the directory with a trailing slash, the prefix
   * that every path joined under `dir` begins with.
   */
  function DirPrefix(dir: Path): (r: Path)
    ensures dir == [] || dir[|dir| - 1] == '/' ==> r == dir
    ensures dir != [] && dir[|dir| - 1] != '/' ==> r == dir + "/"
  {
    Join(dir, "")
  }

  predicate AllSlashes(s: string) {
    forall i :: 0 <= i < |s| ==> s[i] == '/'
  }

  /** `os.path.basename(p)`: the part after the last slash. */
  function BaseName(p: Path): (r: Path)
    ensures '/' !in r
    ensures EndsWith(p, r)
    ensures |r| == |p| || p[|p| - |r| - 1] == '/'
  {
    if p == [] || p[|p| - 1] == '/' then [] else BaseName(p[..|p| - 1]) + [p[|p| - 1]]
  }

  /**
   * `os.path.dirname(p)`: everything up to the last slash, with the trailing
   * slashes removed unless that part consists of slashes only.
   */
  function DirName(p: Path): (r: Path)
    ensures StartsWith(p, r)
    ensures |r| + |BaseName(p)| <= |p|
    ensures AllSlashes(r) ==> |r| + |BaseName(p)| == |p|
    ensures !AllSlashes(r) ==> r[|r| - 1] != '/'
  {
    var head := p[..|p| - |BaseName(p)|];
    if exists i :: 0 <= i < |head| && head[i] != '/' then
      var i :| 0 <= i < |head| && head[i] != '/';
      RStripSlashRemovesSlashes(head);
      assert RStripSlash(head)[i] == head[i];
      RStripSlash(head)
    else head
  }

  /** A path that does not end in a slash has a non-empty base name, so its directory name is shorter. */
  lemma DirNameShorter(p: Path)
    requires p != [] && p[|p| - 1] != '/'
    ensures BaseName(p) != [] && |DirName(p)| < |p|
  {
  }

  /** Between the directory name and the base name there are only slashes. */
  lemma DirNameGap(p: Path)
    ensures forall i :: |DirName(p)| <= i < |p| - |BaseName(p)| ==> p[i] == '/'
  {
    var head := p[..|p| - |BaseName(p)|];
    if exists i :: 0 <= i < |head| && head[i] != '/' {
      RStripSlashRemovesSlashes(head);
      forall i | |DirName(p)| <= i < |p| - |BaseName(p)| ensures p[i] == '/' {
        assert p[i] == head[i];
      }
    }
  }

  /**
   * Where `copy_dependencies` puts a library: the library path with its leading
   * slashes stripped, joined under the staging directory.
   */
  function DestPath(stagingDir: Path, lib: Path): (r: Path)
    ensures StartsWith(r, stagingDir)
    ensures EndsWith(r, LStripSlash(lib))
  {
    Join(stagingDir, LStripSlash(lib))
  }

  /**
   * The destination is exactly the staging directory with a trailing slash
   * (one is added only when it has none and is not empty), followed by the
   * library path stripped of its leading slashes.
   */
  lemma DestPathShape(stagingDir: Path, lib: Path)
    ensures DestPath(stagingDir, lib) == DirPrefix(stagingDir) + LStripSlash(lib)
  {
    var r, s := DestPath(stagingDir, lib), LStripSlash(lib);
    var q := DirPrefix(stagingDir);
    assert |r| == |q| + |s|;
    assert r[..|q|] == q;
    assert r[|q|..] == s;
    assert r == r[..|q|] + r[|q|..];
  }

  /** A library path with a single leading slash is appended verbatim to a staging directory without a trailing one. */
  lemma DestPathOfAbsolute(stagingDir: Path, lib: Path)
    requires stagingDir != [] && stagingDir[|stagingDir| - 1] != '/'
    requires IsAbsolute(lib) && !IsAbsolute(lib[1..])
    ensures DestPath(stagingDir, lib) == stagingDir + lib
  {
    assert LStripSlash(lib) == lib[1..];
    assert stagingDir + "/" + lib[1..] == stagingDir + lib;
  }

  /**
   * Two library paths land on the same staging destination exactly when they
   * agree once their leading slashes are stripped.
   */
  lemma DestPathCollision(stagingDir: Path, a: Path, b: Path)
    ensures DestPath(stagingDir, a) == DestPath(stagingDir, b) <==> LStripSlash(a) == LStripSlash(b)
  {
    var sa, sb := LStripSlash(a), LStripSlash(b);
    var ra, rb := DestPath(stagingDir, a), DestPath(stagingDir, b);
    if ra == rb {
      var sep := if stagingDir == [] || stagingDir[|stagingDir| - 1] == '/' then "" else "/";
      assert ra == stagingDir + sep + sa;
      assert rb == stagingDir + sep + sb;
      assert sa == ra[|stagingDir + sep|..];
      assert sb == rb[|stagingDir + sep|..];
    }
  }

  /** Stripping leading slashes keeps the last character of a path that does not end in one. */
  lemma LStripSlashKeepsLast(a: Path, b: Path)
    requires a != [] && a[|a| - 1] != '/' && LStripSlash(a) == LStripSlash(b)
    ensures LStripSlash(a) != [] && LStripSlash(a)[|LStripSlash(a)| - 1] == a[|a| - 1]
    ensures b != [] && b[|b| - 1] == a[|a| - 1]
  {
    LStripSlashRemovesSlashes(a);
    var s := LStripSlash(a);
    assert s != [];
    assert s[|s| - 1] == a[|a| - 1];
  }

  /** The base name of a path joined under a directory is the joined name itself. */
  lemma BaseNameOfJoin(dir: Path, name: Path)
    requires '/' !in name
    ensures BaseName(Join(dir, name)) == name
  {
    var r := Join(dir, name);
    assert !IsAbsolute(name);
    BaseNameOfSuffix(r, name);
  }

  /** A slash-free suffix preceded by a slash (or by nothing) is the base name. */
  lemma {:induction false} BaseNameOfSuffix(p: Path, name: Path)
    requires '/' !in name && EndsWith(p, name)
    requires |name| == |p| || p[|p| - |name| - 1] == '/'
    ensures BaseName(p) == name
    decreases |name|
  {
    if name != [] {
      var q := p[..|p| - 1];
      var n := name[..|name| - 1];
      assert name == n + [name[|name| - 1]];
      assert p[|p| - 1] == name[|name| - 1];
      assert '/' !in n by {
        forall i | 0 <= i < |n| ensures n[i] != '/' { assert n[i] == name[i]; }
      }
      assert q[|q| - |n|..] == n;
      BaseNameOfSuffix(q, n);
    } else if p != [] {
      assert p[|p| - 1] == '/';
    }
  }
}
