/**
 * `copy_dependencies(binary_path, temp_dir)` as functions of the filesystem:
 * each line of `ldd` output names a library; one that exists is copied to its
 * mirrored path under the staging directory, one that does not is skipped,
 * and an exception ends the scan.
 */
module Staging {
  import opened Wrappers
  import opened Paths
  import opened Text
  import opened Ldd
  import opened Os

  /** The filesystem after (part of) a scan, and the exception that ended it, if any. */
  datatype Staged = Staged(fs: Fs, err: Option<Failure>)

  /** The file `shutil.copy` writes for `lib`, once `os.makedirs` has made the destination's parent. */
  function Target(fs: Fs, stagingDir: Path, lib: Path): (target: Path)
    ensures StartsWith(target, DestPath(stagingDir, lib))
    ensures StartsWith(target, DirPrefix(stagingDir))
  {
    var dest := DestPath(stagingDir, lib);
    var target := CopyTarget(Fs(fs.files, fs.dirs + DirsOf(DirName(dest))), lib, dest);
    DestPathShape(stagingDir, lib);
    StartsWithTrans(target, dest, DirPrefix(stagingDir));
    target
  }

  lemma StartsWithTrans(a: string, b: string, c: string)
    requires StartsWith(a, b) && StartsWith(b, c)
    ensures StartsWith(a, c)
  {
    assert a[..|c|] == a[..|b|][..|c|];
  }

  /** Lines 20-23 of the loop body, for the chosen library path `lib`. */
  function StageLibrary(fs: Fs, stagingDir: Path, lib: Path): (r: Staged)
    ensures !Exists(fs, lib) ==> r == Staged(fs, None)
    ensures Exists(fs, lib) && r.err.None? ==>
      && lib in fs.files
      && r.fs.files == fs.files[Target(fs, stagingDir, lib) := fs.files[lib]]
      && r.fs.dirs == fs.dirs + DirsOf(DirName(DestPath(stagingDir, lib)))
    ensures r.err.Some? ==> r.fs.files == fs.files
    ensures fs.dirs <= r.fs.dirs
  {
    if !Exists(fs, lib) then Staged(fs, None)
    else
      var dest := DestPath(stagingDir, lib);
      match MakeDirs(fs, DirName(dest))
      case Failure(e) => Staged(fs, Some(e))
      case Success(fs1) =>
        assert fs1 == Fs(fs.files, fs.dirs + DirsOf(DirName(dest)));
        match Copy(fs1, lib, dest)
        case Failure(e) => Staged(fs1, Some(e))
        case Success((fs2, _)) => Staged(fs2, None)
  }

  /**
   * The exception staging raises is the one `os.makedirs` or `shutil.copy`
   * raised. A failed `os.makedirs` leaves everything as it was; a failed
   * `shutil.copy` keeps the directories `os.makedirs` made.
   */
  lemma StageLibraryRaises(fs: Fs, stagingDir: Path, lib: Path)
    requires Exists(fs, lib)
    ensures var d := DirName(DestPath(stagingDir, lib));
      var r := StageLibrary(fs, stagingDir, lib);
      MakeDirs(fs, d).Failure? ==> r == Staged(fs, Some(MakeDirs(fs, d).error))
    ensures var d := DirName(DestPath(stagingDir, lib));
      var r := StageLibrary(fs, stagingDir, lib);
      MakeDirs(fs, d).Success? ==>
        var c := Copy(MakeDirs(fs, d).value, lib, DestPath(stagingDir, lib));
        && r.fs.dirs == MakeDirs(fs, d).value.dirs
        && (r.err.Some? <==> c.Failure?)
        && (r.err.Some? ==> r.err.value == c.error)
  {
  }

  /** One iteration of the loop in `copy_dependencies`: choose the path (an IndexError if there is none), then stage it. */
  function StageLine(fs: Fs, stagingDir: Path, line: string): (r: Staged)
    ensures SelectLibrary(line).None? ==> r == Staged(fs, Some(OtherError))
    ensures SelectLibrary(line).Some? ==> r == StageLibrary(fs, stagingDir, SelectLibrary(line).value)
  {
    match SelectLibrary(line)
    case None => Staged(fs, Some(OtherError))
    case Some(lib) => StageLibrary(fs, stagingDir, lib)
  }

  /**
   * The loop over the first `|lines|` lines; it stops at the first exception.
   * Directories are only ever added.
   */
  function StageAll(fs: Fs, stagingDir: Path, lines: seq<string>): (r: Staged)
    ensures fs.dirs <= r.fs.dirs
    decreases |lines|
  {
    if lines == [] then Staged(fs, None)
    else
      var prev := StageAll(fs, stagingDir, lines[..|lines| - 1]);
      if prev.err.Some? then prev else StageLine(prev.fs, stagingDir, lines[|lines| - 1])
  }

  /**
   * The file one line of `ldd` output writes, if it writes one: the copy's
   * target, inside the staging directory, now holding the library's content.
   * A line that writes nothing leaves every file as it was.
   */
  function LineWrite(fs: Fs, stagingDir: Path, line: string): (w: Option<Path>)
    ensures w.None? ==> StageLine(fs, stagingDir, line).fs.files == fs.files
    ensures w.Some? ==>
      && SelectLibrary(line).Some? && SelectLibrary(line).value in fs.files
      && StageLine(fs, stagingDir, line).err.None?
      && StageLine(fs, stagingDir, line).fs.files == fs.files[w.value := fs.files[SelectLibrary(line).value]]
    ensures w.Some? ==> StartsWith(w.value, DirPrefix(stagingDir))
  {
    match SelectLibrary(line)
    case None => None
    case Some(lib) =>
      if Exists(fs, lib) && StageLibrary(fs, stagingDir, lib).err.None? then Some(Target(fs, stagingDir, lib))
      else None
  }

  /** The files one line writes: the one of `LineWrite`, if any. */
  function LineWrites(fs: Fs, stagingDir: Path, line: string): (ws: set<Path>)
    ensures |ws| <= 1
  {
    match LineWrite(fs, stagingDir, line)
    case None => {}
    case Some(p) => {p}
  }

  /** The files the scan of `lines` writes, in any order and counted once: all inside the staging directory. */
  function Written(fs: Fs, stagingDir: Path, lines: seq<string>): (ws: set<Path>)
    ensures forall p :: p in ws ==> StartsWith(p, DirPrefix(stagingDir))
    decreases |lines|
  {
    if lines == [] then {}
    else
      var init := lines[..|lines| - 1];
      var prev := StageAll(fs, stagingDir, init);
      Written(fs, stagingDir, init) + if prev.err.Some? then {} else LineWrites(prev.fs, stagingDir, lines[|lines| - 1])
  }

  /** `copy_dependencies(binary_path, temp_dir)`: run `ldd`, then stage every line of its output. */
  function Dependencies(fs: Fs, binaryPath: Path, stagingDir: Path, ldd: Path -> LddRun): (r: Staged)
    ensures ldd(binaryPath).LddNotFound? ==> r == Staged(fs, Some(FileNotFound))
    ensures ldd(binaryPath).LddFailed? ==> r == Staged(fs, Some(OtherError))
    ensures ldd(binaryPath).LddOutput? ==> r == StageAll(fs, stagingDir, SplitLines(ldd(binaryPath).stdout))
  {
    match ldd(binaryPath)
    case LddNotFound => Staged(fs, Some(FileNotFound))
    case LddFailed => Staged(fs, Some(OtherError))
    case LddOutput(out) => StageAll(fs, stagingDir, SplitLines(out))
  }

  /** The scan of the first `i + 1` lines is the scan of the first `i`, then line `i` unless they raised. */
  lemma StageAllSnoc(fs: Fs, stagingDir: Path, lines: seq<string>, i: nat)
    requires i < |lines|
    ensures var prev := StageAll(fs, stagingDir, lines[..i]);
      StageAll(fs, stagingDir, lines[..i + 1]) ==
        if prev.err.Some? then prev else StageLine(prev.fs, stagingDir, lines[i])
  {
    assert lines[..i + 1][..i] == lines[..i];
  }

  /** Only the last line can be the one that failed: a failing prefix is the whole result. */
  lemma {:induction false} StageAllStops(fs: Fs, stagingDir: Path, lines: seq<string>, more: seq<string>)
    requires StageAll(fs, stagingDir, lines).err.Some?
    ensures StageAll(fs, stagingDir, lines + more) == StageAll(fs, stagingDir, lines)
    decreases |more|
  {
    if more != [] {
      var init := more[..|more| - 1];
      assert (lines + more)[..|lines + more| - 1] == lines + init;
      StageAllStops(fs, stagingDir, lines, init);
    } else {
      assert lines + more == lines;
    }
  }

  /** A scan that ends without an exception found a library path in every line. */
  lemma {:induction false} CompletedScanSelectsEveryLine(fs: Fs, stagingDir: Path, lines: seq<string>)
    requires StageAll(fs, stagingDir, lines).err.None?
    ensures forall i :: 0 <= i < |lines| ==> SelectLibrary(lines[i]).Some?
    decreases |lines|
  {
    if lines != [] {
      var init := lines[..|lines| - 1];
      CompletedScanStep(fs, stagingDir, lines);
      CompletedScanSelectsEveryLine(fs, stagingDir, init);
      forall i | 0 <= i < |lines| ensures SelectLibrary(lines[i]).Some? {
        if i < |init| {
          assert lines[i] == init[i];
        } else {
          assert i == |lines| - 1;
        }
      }
    }
  }

  lemma CompletedScanStep(fs: Fs, stagingDir: Path, lines: seq<string>)
    requires lines != [] && StageAll(fs, stagingDir, lines).err.None?
    ensures StageAll(fs, stagingDir, lines[..|lines| - 1]).err.None?
    ensures SelectLibrary(lines[|lines| - 1]).Some?
  {
    var prev := StageAll(fs, stagingDir, lines[..|lines| - 1]);
    assert prev.err.None?;
    var r := StageLine(prev.fs, stagingDir, lines[|lines| - 1]);
    assert r.err.None?;
  }

  /** Scanning `a + b` is scanning `a`, then, unless that raised, scanning `b` from where `a` left off. */
  lemma {:induction false} StageAllAppend(fs: Fs, stagingDir: Path, a: seq<string>, b: seq<string>)
    ensures var ra := StageAll(fs, stagingDir, a);
      StageAll(fs, stagingDir, a + b) == if ra.err.Some? then ra else StageAll(ra.fs, stagingDir, b)
    decreases |b|
  {
    var ra := StageAll(fs, stagingDir, a);
    if ra.err.Some? {
      StageAllStops(fs, stagingDir, a, b);
    } else if b == [] {
      assert a + b == a;
    } else {
      var init := b[..|b| - 1];
      assert (a + b)[..|a + b| - 1] == a + init;
      assert (a + b)[|a + b| - 1] == b[|b| - 1];
      StageAllAppend(fs, stagingDir, a, init);
    }
  }

  /** `after` holds the files of `before` plus those of `written`, and every file not in `written` kept its content. */
  predicate Framed(before: map<Path, File>, after: map<Path, File>, written: set<Path>) {
    && after.Keys == before.Keys + written
    && forall k :: k in before && k !in written ==> after[k] == before[k]
  }

  lemma FramedTrans(m0: map<Path, File>, m1: map<Path, File>, m2: map<Path, File>, w1: set<Path>, w2: set<Path>)
    requires Framed(m0, m1, w1) && Framed(m1, m2, w2)
    ensures Framed(m0, m2, w1 + w2)
  {
  }

  lemma StageLineFramed(fs: Fs, stagingDir: Path, line: string)
    ensures Framed(fs.files, StageLine(fs, stagingDir, line).fs.files, LineWrites(fs, stagingDir, line))
  {
    match SelectLibrary(line)
    case None =>
      assert StageLine(fs, stagingDir, line) == Staged(fs, Some(OtherError));
      assert LineWrites(fs, stagingDir, line) == {};
    case Some(lib) =>
      assert StageLine(fs, stagingDir, line) == StageLibrary(fs, stagingDir, lib);
      var w := LineWrite(fs, stagingDir, line);
      if w.Some? {
        assert StageLine(fs, stagingDir, line).fs.files == fs.files[w.value := fs.files[lib]];
        assert LineWrites(fs, stagingDir, line) == {w.value};
        UpdateFramed(fs.files, w.value, fs.files[lib]);
      } else {
        assert StageLine(fs, stagingDir, line).fs.files == fs.files;
        assert LineWrites(fs, stagingDir, line) == {};
      }
  }

  lemma UpdateFramed(m: map<Path, File>, k: Path, v: File)
    ensures Framed(m, m[k := v], {k})
  {
    assert m[k := v].Keys == m.Keys + {k};
  }

  /**
   * The frame of a scan: the files it ends with are those it started with
   * plus the ones it wrote, and every file it did not write keeps its
   * content.
   */
  lemma {:induction false} StageAllFrame(fs: Fs, stagingDir: Path, lines: seq<string>)
    ensures Framed(fs.files, StageAll(fs, stagingDir, lines).fs.files, Written(fs, stagingDir, lines))
    decreases |lines|
  {
    if lines != [] {
      var init := lines[..|lines| - 1];
      var prev := StageAll(fs, stagingDir, init);
      StageAllFrame(fs, stagingDir, init);
      if prev.err.None? {
        var last := lines[|lines| - 1];
        StageLineFramed(prev.fs, stagingDir, last);
        FramedTrans(fs.files, prev.fs.files, StageLine(prev.fs, stagingDir, last).fs.files,
          Written(fs, stagingDir, init), LineWrites(prev.fs, stagingDir, last));
      } else {
        assert Written(fs, stagingDir, lines) == Written(fs, stagingDir, init) + {};
      }
    }
  }

  /**
   * The last write wins: when the line after `pre` copies library `lib` to
   * `p` and no line of `post` writes `p`, the scan of `pre + [line] + post`
   * leaves `p` holding the content `lib` had when that line ran.
   */
  lemma StageAllLastWrite(fs: Fs, stagingDir: Path, pre: seq<string>, line: string, post: seq<string>, p: Path)
    requires StageAll(fs, stagingDir, pre).err.None?
    requires LineWrite(StageAll(fs, stagingDir, pre).fs, stagingDir, line) == Some(p)
    requires p !in Written(StageLine(StageAll(fs, stagingDir, pre).fs, stagingDir, line).fs, stagingDir, post)
    ensures var prev := StageAll(fs, stagingDir, pre).fs;
      var r := StageAll(fs, stagingDir, pre + [line] + post);
      p in r.fs.files && r.fs.files[p] == prev.files[SelectLibrary(line).value]
  {
    var prev := StageAll(fs, stagingDir, pre);
    var mid := StageLine(prev.fs, stagingDir, line);
    assert StageAll(fs, stagingDir, pre + [line]) == mid by {
      assert (pre + [line])[..|pre|] == pre;
    }
    StageAllAppend(fs, stagingDir, pre + [line], post);
    StageAllFrame(mid.fs, stagingDir, post);
  }

  /**
   * Lines whose chosen path does not exist, such as the vDSO or the `not`
   * of `=> not found`, leave the filesystem exactly as it was.
   */
  lemma {:induction false} MissingLibrariesChangeNothing(fs: Fs, stagingDir: Path, lines: seq<string>)
    requires forall i :: 0 <= i < |lines| ==>
      SelectLibrary(lines[i]).Some? && !Exists(fs, SelectLibrary(lines[i]).value)
    ensures StageAll(fs, stagingDir, lines) == Staged(fs, None)
    decreases |lines|
  {
    if lines != [] {
      var init := lines[..|lines| - 1];
      forall i | 0 <= i < |init|
        ensures SelectLibrary(init[i]).Some? && !Exists(fs, SelectLibrary(init[i]).value)
      {
        assert init[i] == lines[i];
      }
      MissingLibrariesChangeNothing(fs, stagingDir, init);
    }
  }

  /**
   * Staging writes only inside the staging directory: every file whose path
   * does not begin with the directory followed by a slash, the staged binary's libraries among them, is
   * present and unchanged afterwards, and no such file is created.
   */
  lemma {:induction false} StagingConfined(fs: Fs, stagingDir: Path, lines: seq<string>)
    ensures var r := StageAll(fs, stagingDir, lines);
      && fs.dirs <= r.fs.dirs
      && forall k :: !StartsWith(k, DirPrefix(stagingDir)) ==>
           (k in r.fs.files <==> k in fs.files) && (k in fs.files ==> r.fs.files[k] == fs.files[k])
    decreases |lines|
  {
    if lines != [] {
      var prev := StageAll(fs, stagingDir, lines[..|lines| - 1]);
      StagingConfined(fs, stagingDir, lines[..|lines| - 1]);
      if prev.err.None? {
        StageLineConfined(prev.fs, stagingDir, lines[|lines| - 1]);
      }
    }
  }

  /** One line writes at most one file, and that file lies inside the staging directory. */
  lemma StageLineConfined(fs: Fs, stagingDir: Path, line: string)
    ensures var r := StageLine(fs, stagingDir, line);
      forall k :: !StartsWith(k, DirPrefix(stagingDir)) ==>
        (k in r.fs.files <==> k in fs.files) && (k in fs.files ==> r.fs.files[k] == fs.files[k])
  {
    if SelectLibrary(line).Some? {
      StageLibraryConfined(fs, stagingDir, SelectLibrary(line).value);
    }
  }

  lemma StageLibraryConfined(fs: Fs, stagingDir: Path, lib: Path)
    ensures var r := StageLibrary(fs, stagingDir, lib);
      forall k :: !StartsWith(k, DirPrefix(stagingDir)) ==>
        (k in r.fs.files <==> k in fs.files) && (k in fs.files ==> r.fs.files[k] == fs.files[k])
  {
    var r := StageLibrary(fs, stagingDir, lib);
    if Exists(fs, lib) && r.err.None? {
      var target := Target(fs, stagingDir, lib);
      assert r.fs.files == fs.files[target := fs.files[lib]];
      forall k | !StartsWith(k, DirPrefix(stagingDir)) ensures k != target {
      }
    } else {
      assert r.fs.files == fs.files;
    }
  }

  /** A destination whose last character is not a slash is never among the directories made for it. */
  lemma DestNotAncestorOfItself(stagingDir: Path, lib: Path)
    requires lib != [] && lib[|lib| - 1] != '/'
    ensures DestPath(stagingDir, lib) !in DirsOf(DirName(DestPath(stagingDir, lib)))
  {
    var dest := DestPath(stagingDir, lib);
    assert dest != [] && dest[|dest| - 1] != '/' by {
      LStripSlashKeepsLast(lib, lib);
      DestPathShape(stagingDir, lib);
    }
    DirNameShorter(dest);
    DirsOfAncestors(DirName(dest));
  }

  /**
   * An existing regular file whose destination is not a directory is copied
   * to exactly that destination, and the destination's parent directories
   * are made.
   */
  lemma StageLibraryCopies(fs: Fs, stagingDir: Path, lib: Path)
    requires var dest := DestPath(stagingDir, lib);
      && lib in fs.files && lib !in fs.dirs
      && lib != [] && lib[|lib| - 1] != '/'
      && dest !in fs.dirs && dest != lib
      && MakeDirs(fs, DirName(dest)).Success?
    ensures var dest := DestPath(stagingDir, lib);
      StageLibrary(fs, stagingDir, lib) ==
        Staged(Fs(fs.files[dest := fs.files[lib]], fs.dirs + DirsOf(DirName(dest))), None)
  {
    var dest := DestPath(stagingDir, lib);
    var d := DirName(dest);
    var fs1 := Fs(fs.files, fs.dirs + DirsOf(d));
    assert MakeDirs(fs, d) == Success(fs1);
    assert CopyTarget(fs1, lib, dest) == dest by {
      DestNotAncestorOfItself(stagingDir, lib);
    }
    assert lib !in fs1.dirs by {
      assert lib !in DirsOf(d);
    }
    assert Copy(fs1, lib, dest) == Success((Fs(fs.files[dest := fs.files[lib]], fs1.dirs), dest));
  }

  /**
   * When two lines name libraries with the same destination, the second
   * copy wins: the destination ends up holding the later library's content
   * and no other file differs from before the scan.
   */
  lemma LaterCopyWins(fs: Fs, stagingDir: Path, a: string, b: string)
    requires SelectLibrary(a).Some? && SelectLibrary(b).Some?
    requires var la, lb := SelectLibrary(a).value, SelectLibrary(b).value;
      && la in fs.files && la !in fs.dirs
      && lb in fs.files && lb !in fs.dirs
      && LStripSlash(la) == LStripSlash(lb)
      && la[|la| - 1] != '/'
      && DestPath(stagingDir, la) !in fs.dirs
      && DestPath(stagingDir, la) != la && DestPath(stagingDir, la) != lb
      && MakeDirs(fs, DirName(DestPath(stagingDir, la))).Success?
    ensures var la, lb := SelectLibrary(a).value, SelectLibrary(b).value;
      var r := StageAll(fs, stagingDir, [a, b]);
      && r.err == None
      && r.fs.files == fs.files[DestPath(stagingDir, la) := fs.files[lb]]
  {
    LaterLibraryWins(fs, stagingDir, SelectLibrary(a).value, SelectLibrary(b).value);
    StageAllPair(fs, stagingDir, a, b);
  }

  /** `LaterCopyWins` for the two chosen library paths. */
  lemma LaterLibraryWins(fs: Fs, stagingDir: Path, la: Path, lb: Path)
    requires
      && la in fs.files && la !in fs.dirs
      && lb in fs.files && lb !in fs.dirs
      && LStripSlash(la) == LStripSlash(lb)
      && la != [] && la[|la| - 1] != '/'
      && DestPath(stagingDir, la) !in fs.dirs
      && DestPath(stagingDir, la) != la && DestPath(stagingDir, la) != lb
      && MakeDirs(fs, DirName(DestPath(stagingDir, la))).Success?
    ensures var r1 := StageLibrary(fs, stagingDir, la);
      var r2 := StageLibrary(r1.fs, stagingDir, lb);
      && r1.err == None && r2.err == None
      && r2.fs.files == fs.files[DestPath(stagingDir, la) := fs.files[lb]]
  {
    var dest := DestPath(stagingDir, la);
    var ds := DirsOf(DirName(dest));
    var fs1 := Fs(fs.files[dest := fs.files[la]], fs.dirs + ds);
    var fs2 := Fs(fs1.files[dest := fs.files[lb]], fs1.dirs + ds);
    assert StageLibrary(fs, stagingDir, la) == Staged(fs1, None) by {
      StageLibraryCopies(fs, stagingDir, la);
    }
    assert StageLibrary(fs1, stagingDir, lb) == Staged(fs2, None) by {
      SecondCopy(fs, stagingDir, la, lb);
    }
    assert fs2.files == fs.files[dest := fs.files[lb]] by {
      OverwriteTwice(fs.files, dest, fs.files[la], fs.files[lb]);
    }
  }

  lemma OverwriteTwice(m: map<Path, File>, k: Path, v: File, w: File)
    ensures m[k := v][k := w] == m[k := w]
  {
  }

  /** The scan of two lines: the second is staged unless the first failed. */
  lemma StageAllPair(fs: Fs, stagingDir: Path, a: string, b: string)
    ensures var r1 := StageLine(fs, stagingDir, a);
      StageAll(fs, stagingDir, [a, b]) == if r1.err.Some? then r1 else StageLine(r1.fs, stagingDir, b)
  {
    assert [a][..0] == [];
    assert StageAll(fs, stagingDir, [a]) == StageLine(fs, stagingDir, a);
    assert [a, b][..1] == [a];
  }

  /** The second copy of `LaterCopyWins`, onto the file the first one wrote. */
  lemma SecondCopy(fs: Fs, stagingDir: Path, la: Path, lb: Path)
    requires
      && la in fs.files && la !in fs.dirs
      && lb in fs.files && lb !in fs.dirs
      && LStripSlash(la) == LStripSlash(lb)
      && la != [] && la[|la| - 1] != '/'
      && DestPath(stagingDir, la) !in fs.dirs
      && DestPath(stagingDir, la) != la && DestPath(stagingDir, la) != lb
      && MakeDirs(fs, DirName(DestPath(stagingDir, la))).Success?
    ensures var dest := DestPath(stagingDir, la);
      var ds := DirsOf(DirName(dest));
      var fs1 := Fs(fs.files[dest := fs.files[la]], fs.dirs + ds);
      StageLibrary(fs1, stagingDir, lb) == Staged(Fs(fs1.files[dest := fs.files[lb]], fs1.dirs + ds), None)
  {
    var dest := DestPath(stagingDir, la);
    var d := DirName(dest);
    var fs1 := Fs(fs.files[dest := fs.files[la]], fs.dirs + DirsOf(d));
    assert DestPath(stagingDir, lb) == dest by {
      DestPathCollision(stagingDir, la, lb);
    }
    assert lb != [] && lb[|lb| - 1] != '/' by {
      LStripSlashKeepsLast(la, lb);
    }
    assert dest !in DirsOf(d) by {
      DestNotAncestorOfItself(stagingDir, la);
    }
    assert lb !in DirsOf(d) by {
      FileNotAmongDirs(fs, d, lb);
    }
    assert MakeDirs(fs1, d).Success? by {
      MakeDirsAfterWrite(fs, d, dest, fs.files[la]);
    }
    StageLibraryCopies(fs1, stagingDir, lb);
  }

}
