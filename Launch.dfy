/**
 * The launch half of `main`: copy the command into the staging directory
 * and make it executable, stage its libraries, run it under `unshare` and
 * `chroot`, and turn what happened into the launcher's exit code.
 */
module Launch {
  import opened Wrappers
  import opened Paths
  import opened Ldd
  import opened Os
  import opened Staging

  /**
   * What `subprocess.run(argv, capture_output=True)` gives back: the child's
   * return code together with whether its captured output decodes as UTF-8,
   * or the exception raised when the program cannot be found or started.
   */
  datatype ChildRun = ChildExited(returncode: int, decodes: bool) | ChildNotFound | ChildFailed

  /**
   * How the `try` block ends: `sys.exit(n)` (whose SystemExit is not an
   * `Exception`, so no handler catches it) or an exception of one of the two
   * kinds the handlers tell apart.
   */
  datatype Outcome = Exited(code: int) | Raised(failure: Failure)

  const UNSHARE: seq<string> := ["unshare", "--pid", "--fork", "--mount-proc", "--"]

  /** The argument to `sys.exit` on each path out of the `try` block. */
  function ExitCode(o: Outcome): (code: int)
    ensures o.Exited? ==> code == o.code
    ensures o == Raised(FileNotFound) ==> code == 2
    ensures o == Raised(OtherError) ==> code == 1
  {
    match o
    case Exited(n) => n
    case Raised(FileNotFound) => 2
    case Raised(OtherError) => 1
  }

  /**
   * The status the operating system reports for `sys.exit(code)`: the low
   * eight bits, so a child killed by signal `s` (return code `-s`) makes the
   * launcher exit with `256 - s`.
   */
  function ExitStatus(code: int): (status: int)
    ensures 0 <= status < 256
    ensures 0 <= code < 256 ==> status == code
    ensures -256 < code < 0 ==> status == 256 + code
  {
    code % 256
  }

  /**
   * The launcher reports success only when the child itself did: no
   * exception, and no child status other than 0, ends in status 0.
   */
  lemma SuccessOnlyFromChild(o: Outcome)
    requires o.Exited? ==> -256 < o.code < 256
    ensures ExitStatus(ExitCode(o)) == 0 <==> o == Exited(0)
  {
    if o.Exited? {
      assert o.code != 0 ==> ExitStatus(o.code) != 0;
    }
  }

  /** `os.path.join("/", os.path.basename(binary_path))`. */
  function CommandInChroot(binaryPath: Path): (r: Path)
    ensures r == "/" + BaseName(binaryPath)
    ensures '/' !in r[1..]
  {
    assert !IsAbsolute(BaseName(binaryPath));
    Join("/", BaseName(binaryPath))
  }

  /**
   * Inside the new root `stagingDir`, the command path names the file
   * `shutil.copy(command, stagingDir)` wrote: prefixing the root gives back
   * the copy's host path.
   */
  lemma CommandResolvesToCopy(stagingDir: Path, command: Path)
    requires stagingDir != [] && stagingDir[|stagingDir| - 1] != '/'
    ensures var binaryPath := Join(stagingDir, BaseName(command));
      && CommandInChroot(binaryPath) == "/" + BaseName(command)
      && stagingDir + CommandInChroot(binaryPath) == binaryPath
  {
    var name := BaseName(command);
    var binaryPath := Join(stagingDir, name);
    assert binaryPath == stagingDir + ("/" + name) by {
      assert !IsAbsolute(name);
      assert stagingDir + "/" + name == stagingDir + ("/" + name);
    }
    assert CommandInChroot(binaryPath) == "/" + name by {
      BaseNameOfJoin(stagingDir, name);
    }
  }

  /** `unshare_command + chroot_command`. */
  function Argv(stagingDir: Path, commandInChroot: Path, args: seq<string>): (argv: seq<string>)
    ensures |argv| == |UNSHARE| + 3 + |args|
    ensures argv[..|UNSHARE|] == UNSHARE
    ensures argv[|UNSHARE|] == "chroot" && argv[|UNSHARE| + 1] == stagingDir && argv[|UNSHARE| + 2] == commandInChroot
    ensures argv[|UNSHARE| + 3..] == args
  {
    UNSHARE + (["chroot", stagingDir, commandInChroot] + args)
  }

  /** Reads an argv of the shape `Argv` builds back into its root, command and arguments. */
  function ParseArgv(argv: seq<string>): (r: Option<(Path, Path, seq<string>)>)
    ensures r.Some? <==> |argv| >= |UNSHARE| + 3 && argv[..|UNSHARE|] == UNSHARE && argv[|UNSHARE|] == "chroot"
  {
    if |argv| >= |UNSHARE| + 3 && argv[..|UNSHARE|] == UNSHARE && argv[|UNSHARE|] == "chroot" then
      Some((argv[|UNSHARE| + 1], argv[|UNSHARE| + 2], argv[|UNSHARE| + 3..]))
    else None
  }

  /** Nothing is lost in the argv: the root, the command and every argument come back out verbatim. */
  lemma ParseArgvInverse(stagingDir: Path, commandInChroot: Path, args: seq<string>)
    ensures ParseArgv(Argv(stagingDir, commandInChroot, args)) == Some((stagingDir, commandInChroot, args))
  {
    var argv := Argv(stagingDir, commandInChroot, args);
    assert argv[..|UNSHARE|] == UNSHARE;
  }

  /** Different launches give different argvs: `Argv` is injective. */
  lemma ArgvInjective(t1: Path, c1: Path, a1: seq<string>, t2: Path, c2: Path, a2: seq<string>)
    requires Argv(t1, c1, a1) == Argv(t2, c2, a2)
    ensures t1 == t2 && c1 == c2 && a1 == a2
  {
    ParseArgvInverse(t1, c1, a1);
    ParseArgvInverse(t2, c2, a2);
  }

  /**
   * Lines 34-37: copy the command into the staging directory, then set the
   * owner-execute bit on the copy, keeping its other mode bits.
   */
  function CopyBinary(fs: Fs, command: Path, stagingDir: Path): (r: Result<(Fs, Path), Failure>)
    ensures r.Failure? <==> Copy(fs, command, stagingDir).Failure?
    ensures r.Failure? ==> r.error == Copy(fs, command, stagingDir).error
    ensures r.Success? ==>
      var (fs2, binaryPath) := r.value;
      && binaryPath == CopyTarget(fs, command, stagingDir)
      && command in fs.files
      && fs2.dirs == fs.dirs
      && fs2.files == fs.files[binaryPath := File(fs.files[command].content, WithExec(fs.files[command].mode))]
  {
    match Copy(fs, command, stagingDir)
    case Failure(e) => Failure(e)
    case Success((fs1, binaryPath)) =>
      Success((Chmod(fs1, binaryPath, WithExec(fs1.files[binaryPath].mode)), binaryPath))
  }

  /**
   * The copy carries the command's content; it is executable by its owner
   * and has lost none of the permission bits the command had.
   */
  lemma CopiedBinaryIsExecutable(fs: Fs, command: Path, stagingDir: Path)
    requires CopyBinary(fs, command, stagingDir).Success?
    ensures var (fs2, binaryPath) := CopyBinary(fs, command, stagingDir).value;
      var m := fs2.files[binaryPath].mode;
      && fs2.files[binaryPath].content == fs.files[command].content
      && m & S_IEXEC == S_IEXEC
      && m & fs.files[command].mode == fs.files[command].mode
  {
    WithExecKeepsBits(fs.files[command].mode);
  }

  /** The filesystem when the `try` block ends, and how it ends. */
  datatype Launched = Launched(fs: Fs, outcome: Outcome)

  /** What the child's run turns into: its return code, or the exception it (or decoding its output) raised. */
  function Relay(run: ChildRun): (o: Outcome)
    ensures run.ChildExited? && run.decodes ==> o == Exited(run.returncode)
    ensures run.ChildExited? && !run.decodes ==> o == Raised(OtherError)
    ensures run.ChildNotFound? ==> o == Raised(FileNotFound)
    ensures run.ChildFailed? ==> o == Raised(OtherError)
  {
    match run
    case ChildExited(code, decodes) => if decodes then Exited(code) else Raised(OtherError)
    case ChildNotFound => Raised(FileNotFound)
    case ChildFailed => Raised(OtherError)
  }

  /**
   * The `try` block of `main` with `command = sys.argv[3]`, `args = sys.argv[4:]`
   * and the temporary directory `stagingDir`; `ldd` and `spawn` stand for the
   * two `subprocess.run` calls. A failed copy of the command changes
   * nothing; otherwise the filesystem is the one the scan leaves, and the
   * launcher exits through `sys.exit` only with the return code of a child
   * that was run after a scan without exception and whose output decoded.
   */
  function Run(fs: Fs, command: Path, args: seq<string>, stagingDir: Path,
               ldd: Path -> LddRun, spawn: seq<string> -> ChildRun): (r: Launched)
    ensures CopyBinary(fs, command, stagingDir).Failure? ==>
      r == Launched(fs, Raised(Copy(fs, command, stagingDir).error))
    ensures CopyBinary(fs, command, stagingDir).Success? ==>
      r.fs == Dependencies(CopyBinary(fs, command, stagingDir).value.0, command, stagingDir, ldd).fs
    ensures r.outcome.Exited? ==>
      && CopyBinary(fs, command, stagingDir).Success?
      && Dependencies(CopyBinary(fs, command, stagingDir).value.0, command, stagingDir, ldd).err.None?
      && var argv := Argv(stagingDir, CommandInChroot(CopyBinary(fs, command, stagingDir).value.1), args);
         spawn(argv) == ChildExited(r.outcome.code, true)
  {
    match CopyBinary(fs, command, stagingDir)
    case Failure(e) => Launched(fs, Raised(e))
    case Success((fs1, binaryPath)) =>
      var staged := Dependencies(fs1, command, stagingDir, ldd);
      if staged.err.Some? then Launched(staged.fs, Raised(staged.err.value))
      else Launched(staged.fs, Relay(spawn(Argv(stagingDir, CommandInChroot(binaryPath), args))))
  }

  /** A command that does not exist ends in FileNotFoundError, exit code 2, with nothing written. */
  lemma MissingCommand(fs: Fs, command: Path, args: seq<string>, stagingDir: Path,
                       ldd: Path -> LddRun, spawn: seq<string> -> ChildRun)
    requires !Exists(fs, command)
    ensures Run(fs, command, args, stagingDir, ldd, spawn) == Launched(fs, Raised(FileNotFound))
    ensures ExitCode(Run(fs, command, args, stagingDir, ldd, spawn).outcome) == 2
  {
  }

  /**
   * When the copy and the scan succeed, the child is run with exactly
   * `unshare --pid --fork --mount-proc -- chroot stagingDir /name args...`,
   * `name` being the command's base name, and its outcome is relayed.
   */
  lemma RunsChildInRoot(fs: Fs, command: Path, args: seq<string>, stagingDir: Path,
                        ldd: Path -> LddRun, spawn: seq<string> -> ChildRun)
    requires stagingDir in fs.dirs
    requires CopyBinary(fs, command, stagingDir).Success?
    requires Dependencies(CopyBinary(fs, command, stagingDir).value.0, command, stagingDir, ldd).err.None?
    ensures var argv := UNSHARE + ["chroot", stagingDir, "/" + BaseName(command)] + args;
      Run(fs, command, args, stagingDir, ldd, spawn).outcome == Relay(spawn(argv))
  {
    var binaryPath := CopyBinary(fs, command, stagingDir).value.1;
    CopiedCommandName(fs, command, stagingDir);
    var argv := UNSHARE + ["chroot", stagingDir, "/" + BaseName(command)] + args;
    assert Argv(stagingDir, CommandInChroot(binaryPath), args) == argv;
    assert Run(fs, command, args, stagingDir, ldd, spawn).outcome == Relay(spawn(argv));
  }

  /** Copied into a directory, the command keeps its base name, so inside the new root it is `/name`. */
  lemma CopiedCommandName(fs: Fs, command: Path, stagingDir: Path)
    requires stagingDir in fs.dirs
    requires CopyBinary(fs, command, stagingDir).Success?
    ensures CommandInChroot(CopyBinary(fs, command, stagingDir).value.1) == "/" + BaseName(command)
  {
    assert CopyBinary(fs, command, stagingDir).value.1 == CopyTarget(fs, command, stagingDir);
  }

  /**
   * The library scan runs `ldd` on the original command, not on the copy:
   * the result depends on what the `ldd` oracle says about `command` only.
   */
  lemma ScanUsesOriginalCommand(fs: Fs, command: Path, args: seq<string>, stagingDir: Path,
                                ldd1: Path -> LddRun, ldd2: Path -> LddRun, spawn: seq<string> -> ChildRun)
    requires ldd1(command) == ldd2(command)
    ensures Run(fs, command, args, stagingDir, ldd1, spawn) == Run(fs, command, args, stagingDir, ldd2, spawn)
  {
  }

  /**
   * An exception in the scan (an `ldd` line with too few tokens, a failed
   * `os.makedirs` or `shutil.copy`, `ldd` missing) ends `main` without running
   * the child, with exit code 2 for FileNotFoundError and 1 otherwise.
   */
  lemma ScanFailureSkipsChild(fs: Fs, command: Path, args: seq<string>, stagingDir: Path,
                              ldd: Path -> LddRun, spawn: seq<string> -> ChildRun)
    requires CopyBinary(fs, command, stagingDir).Success?
    requires Dependencies(CopyBinary(fs, command, stagingDir).value.0, command, stagingDir, ldd).err.Some?
    ensures var e := Dependencies(CopyBinary(fs, command, stagingDir).value.0, command, stagingDir, ldd).err.value;
      var code := ExitCode(Run(fs, command, args, stagingDir, ldd, spawn).outcome);
      && Run(fs, command, args, stagingDir, ldd, spawn).outcome == Raised(e)
      && (e == FileNotFound ==> code == 2)
      && (e == OtherError ==> code == 1)
  {
  }
}
