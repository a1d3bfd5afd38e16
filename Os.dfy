/**
 * The filesystem as the launcher sees it, and the effect of the three calls
 * that change it: `os.makedirs(d, exist_ok=True)`, `shutil.copy(src, dst)`
 * and `os.chmod(p, mode)`. Paths are plain strings looked up verbatim.
 */
module Os {
  import opened Wrappers
  import opened Paths

  /** `st_mode` of a file: type bits and permission bits. */
  type Mode = bv32

  /** `stat.S_IEXEC`, the owner-execute permission bit (octal 100). */
  const S_IEXEC: Mode := 0x40

  datatype File = File(content: seq<bv8>, mode: Mode)

  /** Regular files by path, and the set of paths that are directories. */
  datatype Fs = Fs(files: map<Path, File>, dirs: set<Path>)

  /**
   * The two kinds of exception `main` tells apart: `FileNotFoundError`, and
   * every other `Exception` (IndexError, IsADirectoryError, FileExistsError,
   * shutil.SameFileError, UnicodeDecodeError, ...).
   */
  datatype Failure = FileNotFound | OtherError

  /**
   * `os.path.exists(p)`: a file or a directory is there. A directory counts,
   * so a directory named by `ldd` is handed on to `shutil.copy`.
   */
  predicate Exists(fs: Fs, p: Path)
    ensures p in fs.files ==> Exists(fs, p)
    ensures p in fs.dirs ==> Exists(fs, p)
    ensures p !in fs.files && p !in fs.dirs ==> !Exists(fs, p)
  {
    p in fs.files || p in fs.dirs
  }

  /** `d` and each of its prefixes that ends just before a slash: the directories `os.makedirs(d)` ensures. */
  function DirsOf(d: Path): (r: set<Path>)
    ensures d in r
  {
    {d} + set i | 0 < i < |d| && d[i] == '/' :: d[..i]
  }

  /** The directories of `DirsOf(d)` are exactly `d` and its proper ancestors: the non-empty prefixes followed by a slash. */
  lemma DirsOfAncestors(d: Path)
    ensures forall i :: 0 < i < |d| && d[i] == '/' ==> d[..i] in DirsOf(d)
    ensures forall p :: p in DirsOf(d) ==>
      p == d || (p != [] && |p| < |d| && d[|p|] == '/' && StartsWith(d, p))
  {
  }

  /**
   * `os.makedirs(d, exist_ok=True)`: afterwards `d` and its ancestors are
   * directories and no file has changed. An empty `d` raises
   * FileNotFoundError; a file standing where a directory is needed raises
   * FileExistsError. Making a directory that is already there is no error.
   */
  function MakeDirs(fs: Fs, d: Path): (r: Result<Fs, Failure>)
    ensures r == Failure(FileNotFound) <==> d == []
    ensures r == Failure(OtherError) <==> d != [] && exists p :: p in DirsOf(d) && p in fs.files
    ensures r.Success? ==>
      && r.value.files == fs.files
      && d in r.value.dirs
      && r.value.dirs == fs.dirs + DirsOf(d)
  {
    if d == [] then Failure(FileNotFound)
    else if exists p :: p in DirsOf(d) && p in fs.files then Failure(OtherError)
    else Success(Fs(fs.files, fs.dirs + DirsOf(d)))
  }

  /** `exist_ok=True` makes `os.makedirs` idempotent. */
  lemma MakeDirsIdempotent(fs: Fs, d: Path)
    requires MakeDirs(fs, d).Success?
    ensures MakeDirs(MakeDirs(fs, d).value, d) == MakeDirs(fs, d)
  {
    var fs1 := MakeDirs(fs, d).value;
    assert fs1.dirs + DirsOf(d) == fs1.dirs;
  }

  /** Writing a file that is not among the directories `os.makedirs(d)` needs does not make it fail. */
  lemma MakeDirsAfterWrite(fs: Fs, d: Path, p: Path, f: File)
    requires MakeDirs(fs, d).Success? && p !in DirsOf(d)
    ensures MakeDirs(Fs(fs.files[p := f], fs.dirs + DirsOf(d)), d).Success?
  {
    assert forall q :: q in DirsOf(d) && q in fs.files[p := f] ==> q in fs.files;
  }

  /** Once `os.makedirs(d)` has succeeded, no file stands where one of its directories is. */
  lemma FileNotAmongDirs(fs: Fs, d: Path, p: Path)
    requires MakeDirs(fs, d).Success? && p in fs.files
    ensures p !in DirsOf(d)
  {
  }

  /** Where `shutil.copy(src, dst)` writes: into a directory `dst` under the source's base name, else at `dst`. */
  function CopyTarget(fs: Fs, src: Path, dst: Path): (target: Path)
    ensures StartsWith(target, dst)
    ensures dst !in fs.dirs ==> target == dst
    ensures dst in fs.dirs ==> BaseName(target) == BaseName(src)
    ensures dst in fs.dirs ==> target == DirPrefix(dst) + BaseName(src)
  {
    if dst in fs.dirs then
      BaseNameOfJoin(dst, BaseName(src));
      Join(dst, BaseName(src))
    else dst
  }

  /**
   * `shutil.copy(src, dst)`: the target receives the source's content and
   * permission bits, nothing else changes, and the target path is returned.
   * A missing source raises FileNotFoundError; a directory as source raises
   * IsADirectoryError; copying a file onto itself raises SameFileError.
   */
  function Copy(fs: Fs, src: Path, dst: Path): (r: Result<(Fs, Path), Failure>)
    ensures !Exists(fs, src) ==> r == Failure(FileNotFound)
    ensures src in fs.dirs ==> r == Failure(OtherError)
    ensures r.Success? <==> src in fs.files && src !in fs.dirs && CopyTarget(fs, src, dst) != src
    ensures r.Failure? ==> (r.error == FileNotFound <==> !Exists(fs, src))
    ensures r.Success? ==>
      && r.value.1 == CopyTarget(fs, src, dst)
      && r.value.0.files == fs.files[r.value.1 := fs.files[src]]
      && r.value.0.dirs == fs.dirs
  {
    var target := CopyTarget(fs, src, dst);
    if src in fs.dirs then Failure(OtherError)
    else if src !in fs.files then Failure(FileNotFound)
    else if target == src then Failure(OtherError)
    else Success((Fs(fs.files[target := fs.files[src]], fs.dirs), target))
  }

  /** The mode `main` gives the copied binary: the owner-execute bit added, every other bit kept. */
  function WithExec(mode: Mode): (r: Mode)
    ensures r & S_IEXEC == S_IEXEC
    ensures r & !S_IEXEC == mode & !S_IEXEC
  {
    mode | S_IEXEC
  }

  /** No permission bit the file had is cleared by `WithExec`. */
  lemma WithExecKeepsBits(mode: Mode)
    ensures WithExec(mode) & mode == mode
  {
  }

  /**
   * `os.chmod(p, mode)` on a file. Only the permission bits of `mode` reach
   * the file, but `main` passes a value whose type bits are the file's own, so
   * the new `st_mode` is `mode` itself.
   */
  function Chmod(fs: Fs, p: Path, mode: Mode): (r: Fs)
    requires p in fs.files
    ensures r.dirs == fs.dirs && r.files.Keys == fs.files.Keys
    ensures r.files[p] == File(fs.files[p].content, mode)
    ensures forall q :: q in fs.files && q != p ==> r.files[q] == fs.files[q]
  {
    Fs(fs.files[p := File(fs.files[p].content, mode)], fs.dirs)
  }
}
