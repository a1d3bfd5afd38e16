/**
 * The launcher as the program it is: a filesystem object whose files and
 * directories the OS calls change in place, `copy_dependencies` as a loop
 * over the lines of `ldd` output, and the `try` block of `main`. Each method
 * is proved to leave the filesystem, and return, what the functions of
 * `Staging` and `Launch` say.
 */
module Host {
  import opened Wrappers
  import opened Paths
  import opened Text
  import opened Ldd
  import opened Os
  import opened Staging
  import opened Launch

  /** The machine's filesystem, updated in place by `os.makedirs`, `shutil.copy` and `os.chmod`. */
  class FileSystem {
    var files: map<Path, File>
    var dirs: set<Path>

    function State(): Fs
      reads this
    {
      Fs(files, dirs)
    }

    constructor(fs: Fs)
      ensures State() == fs
    {
      files := fs.files;
      dirs := fs.dirs;
    }

    /** `os.path.exists(p)`. */
    method PathExists(p: Path) returns (b: bool)
      ensures b == Exists(State(), p)
    {
      b := p in files || p in dirs;
    }

    /** `os.makedirs(d, exist_ok=True)`: `err` is the exception raised, if any. */
    method MakeDirs(d: Path) returns (err: Option<Failure>)
      modifies this
      ensures Os.MakeDirs(old(State()), d).Success? ==> err == None && State() == Os.MakeDirs(old(State()), d).value
      ensures Os.MakeDirs(old(State()), d).Failure? ==> err == Some(Os.MakeDirs(old(State()), d).error) && State() == old(State())
    {
      match Os.MakeDirs(State(), d)
      case Success(fs1) =>
        dirs := fs1.dirs;
        err := None;
      case Failure(e) =>
        err := Some(e);
    }

    /** `shutil.copy(src, dst)`: `target` is the path it returns. */
    method Copy(src: Path, dst: Path) returns (target: Path, err: Option<Failure>)
      modifies this
      ensures Os.Copy(old(State()), src, dst).Success? ==>
        err == None && (State(), target) == Os.Copy(old(State()), src, dst).value
      ensures Os.Copy(old(State()), src, dst).Failure? ==>
        err == Some(Os.Copy(old(State()), src, dst).error) && State() == old(State())
    {
      match Os.Copy(State(), src, dst)
      case Success((fs1, t)) =>
        files := fs1.files;
        target, err := t, None;
      case Failure(e) =>
        target, err := dst, Some(e);
    }

    /** `os.stat(p).st_mode` of a file. */
    method Stat(p: Path) returns (mode: Mode)
      requires p in State().files
      ensures mode == State().files[p].mode
    {
      mode := files[p].mode;
    }

    /** `os.chmod(p, mode)` on a file. */
    method Chmod(p: Path, mode: Mode)
      requires p in State().files
      modifies this
      ensures State() == Os.Chmod(old(State()), p, mode)
    {
      files := files[p := File(files[p].content, mode)];
    }
  }

  /**
   * `copy_dependencies(binary_path, temp_dir)`. `err` is the exception that
   * escapes it, if any; the files copied before it was raised stay copied.
   */
  method CopyDependencies(fs: FileSystem, binaryPath: Path, stagingDir: Path, ldd: Path -> LddRun)
    returns (err: Option<Failure>)
    modifies fs
    ensures Staged(fs.State(), err) == Dependencies(old(fs.State()), binaryPath, stagingDir, ldd)
  {
    match ldd(binaryPath)
    case LddNotFound =>
      return Some(FileNotFound);
    case LddFailed =>
      return Some(OtherError);
    case LddOutput(out) =>
      var lines := SplitLines(out);
      ghost var fs0 := fs.State();
      var i := 0;
      while i < |lines|
        invariant 0 <= i <= |lines|
        invariant StageAll(fs0, stagingDir, lines[..i]) == Staged(fs.State(), None)
      {
        var e := CopyLine(fs, stagingDir, lines[i]);
        StageAllSnoc(fs0, stagingDir, lines, i);
        if e.Some? {
          StageAllStops(fs0, stagingDir, lines[..i + 1], lines[i + 1..]);
          assert lines[..i + 1] + lines[i + 1..] == lines;
          return e;
        }
        i := i + 1;
      }
      assert lines[..i] == lines;
      return None;
  }

  /** The body of the loop in `copy_dependencies`, for one line of `ldd` output. */
  method CopyLine(fs: FileSystem, stagingDir: Path, line: string) returns (err: Option<Failure>)
    modifies fs
    ensures Staged(fs.State(), err) == StageLine(old(fs.State()), stagingDir, line)
  {
    var parts := SplitWords(line);
    var libPath: Path;
    if ARROW in parts {
      if |parts| < 3 {
        return Some(OtherError);
      }
      libPath := parts[2];
    } else {
      if parts == [] {
        return Some(OtherError);
      }
      libPath := parts[0];
    }
    assert SelectLibrary(line) == Some(libPath);
    var found := fs.PathExists(libPath);
    if found {
      var destPath := DestPath(stagingDir, libPath);
      err := fs.MakeDirs(DirName(destPath));
      if err.Some? {
        return;
      }
      var _, e := fs.Copy(libPath, destPath);
      err := e;
    } else {
      err := None;
    }
  }

  /**
   * The `try` block of `main`; `code` is the value `sys.exit` is called with
   * on the path taken.
   */
  method RunMain(fs: FileSystem, command: Path, args: seq<string>, stagingDir: Path,
                 ldd: Path -> LddRun, spawn: seq<string> -> ChildRun) returns (code: int)
    modifies fs
    ensures var r := Run(old(fs.State()), command, args, stagingDir, ldd, spawn);
      fs.State() == r.fs && code == ExitCode(r.outcome)
  {
    ghost var fs0 := fs.State();
    var binaryPath, err := fs.Copy(command, stagingDir);
    if err.Some? {
      return ExitCode(Raised(err.value));
    }
    ghost var fs1 := fs.State();
    var mode := fs.Stat(binaryPath);
    fs.Chmod(binaryPath, mode | S_IEXEC);
    assert CopyBinary(fs0, command, stagingDir) == Success((fs.State(), binaryPath)) by {
      assert Os.Copy(fs0, command, stagingDir) == Success((fs1, binaryPath));
      assert mode | S_IEXEC == WithExec(fs1.files[binaryPath].mode);
    }
    err := CopyDependencies(fs, command, stagingDir, ldd);
    if err.Some? {
      return ExitCode(Raised(err.value));
    }
    var commandInChroot := CommandInChroot(binaryPath);
    var argv := UNSHARE + (["chroot", stagingDir, commandInChroot] + args);
    assert argv == Argv(stagingDir, commandInChroot, args);
    var completed := spawn(argv);
    match completed
    case ChildExited(returncode, decodes) =>
      if !decodes {
        return ExitCode(Raised(OtherError));
      }
      return ExitCode(Exited(returncode));
    case ChildNotFound =>
      return ExitCode(Raised(FileNotFound));
    case ChildFailed =>
      return ExitCode(Raised(OtherError));
  }
}
