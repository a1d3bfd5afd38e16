# A verified model of the chroot launcher

`app/main.py` runs a program in isolation. It:

1. copies the program into a temporary directory and makes the copy executable;
2. copies each shared library path that `ldd` reports and that exists on the host into the same directory, at the library's own path below it;
3. runs the copy under `unshare --pid --fork --mount-proc -- chroot <dir> /<name> <args...>`;
4. exits with the child's return code, or with 2 for a `FileNotFoundError` and 1 for any other exception.

This project models those steps in Dafny and proves what they promise.

The modules follow the program's structure:

- `Text`: Python's `str.splitlines()` and `str.split()`.
- `Paths`: `str.lstrip('/')` and `os.path.join`, `basename`, `dirname`.
- `Ldd`: the token choice for one line of `ldd` output.
- `Os`:
  - a filesystem value: files with content and `st_mode`, plus a set of directories;
  - `os.makedirs`, `shutil.copy` and `os.chmod` as functions on it.
- `Staging`: `copy_dependencies` as functions of the filesystem, and the properties of the scan.
- `Launch`: the `try` block of `main` as a function, with the in-root command path, the argv, and the exception-to-exit-code mapping.
- `Host`: the imperative program. Its parts:
  - a `FileSystem` class whose fields the OS calls update in place;
  - `copy_dependencies` as a `while` loop over the `ldd` lines;
  - `main`'s `try` block as a method.

  Each method is proved to produce exactly the state and the result that the `Staging` and `Launch` functions give.

Some inputs come from outside the model. Each is a parameter:

- the output of `ldd`: an oracle `Path -> LddRun`;
- the child process: an oracle `seq<string> -> ChildRun`, from the argv to its return code, or to the exception `subprocess.run` raises;
- the temporary directory: a path.

## Model

| member | source | states |
|---|---|---|
| Text.IsSpace | app/main.py:14 | The whitespace `str.split()` splits on: space and tab are in it, no printable ASCII character is |
| Text.IsLineBreak | app/main.py:11 | The line boundaries of `str.splitlines()`: `\n` and `\r` are, space and tab are not, and every line boundary is whitespace |
| Text.SplitLines | app/main.py:11 | `str.splitlines()`: no line contains a line break, and there are no lines exactly when the text is empty |
| Text.SplitUnlines | app/main.py:11 | Terminating each line with `\n`, `\r\n` or `\r` and splitting gives the same lines back |
| Text.SplitWords | app/main.py:14 | `str.split()`: every part is non-empty and contains no whitespace |
| Text.SplitWordsEmpty | app/main.py:14 | A line has no tokens exactly when it is all whitespace |
| Text.SplitWordsSkipsSpaces | app/main.py:14 | Leading whitespace of any length does not change the tokens |
| Text.SplitWordsCons | app/main.py:14 | A token followed by whitespace, or by nothing, is the first token and the rest is split on its own |
| Text.SplitUnwords | app/main.py:14 | Joining tokens with single spaces and splitting gives the same tokens back |
| Ldd.SelectLibrary | app/main.py:14-18 | With a `=>` token the path is the third token, otherwise the first. There is none (the IndexError) exactly when the line has no tokens, or has `=>` but fewer than three tokens |
| Ldd.TokensOfLine | app/main.py:14 | A tab-indented line of space-separated tokens splits into those tokens |
| Ldd.ResolvedLine | app/main.py:14-16 | `name => path (addr)` selects `path` |
| Ldd.BareLine | app/main.py:17-18 | `path (addr)` without an arrow selects `path` |
| Ldd.NotFoundLine | app/main.py:14-16 | `name => not found` selects the word `not` |
| Ldd.DanglingArrowLine | app/main.py:14-16 | `name =>` has no third token: the IndexError |
| Ldd.BlankLine | app/main.py:14-18 | A blank line has no first token: the IndexError |
| Paths.LStripSlash | app/main.py:21 | The result is a suffix of the input and does not start with `/` |
| Paths.LStripSlashRemovesSlashes | app/main.py:21 | Only slashes are removed |
| Paths.LStripSlashKeepsLast | app/main.py:21 | Stripping keeps a path's last character when that character is not `/` |
| Paths.Join | app/main.py:21 | An absolute second part replaces the first. Otherwise the result is the first part followed by the second, with one `/` inserted exactly when the first part is non-empty and does not end in `/` |
| Paths.DirPrefix | app/main.py:21 | `os.path.join(dir, "")`: the directory itself when it is empty or ends in `/`, otherwise the directory followed by `/` |
| Paths.BaseName | app/main.py:43 | Contains no `/`, is a suffix of the path, and is preceded by `/` or by nothing |
| Paths.BaseNameOfJoin | app/main.py:34 | The base name of a slash-free name joined under a directory is that name |
| Paths.RStripSlash | app/main.py:22 | Removes trailing slashes only: the result is a prefix and does not end in `/` |
| Paths.RStripSlashRemovesSlashes | app/main.py:22 | Only slashes are removed from the end |
| Paths.DirName | app/main.py:22 | A prefix of the path that stops before the base name. Its trailing slashes are removed, unless it consists of slashes only; then it reaches up to the base name |
| Paths.DirNameGap | app/main.py:22 | Only slashes lie between the directory name and the base name |
| Paths.DestPath | app/main.py:21 | Starts with the staging directory and ends with the library path stripped of its leading slashes |
| Paths.DestPathShape | app/main.py:21 | The destination is exactly `DirPrefix(stagingDir)` followed by the library path stripped of its leading slashes |
| Paths.DestPathOfAbsolute | app/main.py:21 | `/usr/lib/x` under a directory `d` without a trailing `/` becomes `d/usr/lib/x` verbatim |
| Paths.DestPathCollision | app/main.py:21 | Two libraries share a destination if and only if they agree once their leading slashes are stripped |
| Os.Exists | app/main.py:20 | `os.path.exists`: a file or a directory at the path exists, and nothing else does |
| Os.DirsOf | app/main.py:22 | `d` itself is among the directories `os.makedirs(d)` guarantees |
| Os.DirsOfAncestors | app/main.py:22 | Those directories are `d` and exactly its non-empty prefixes that are followed by `/` in `d`: each such prefix is among them and each other member is `d` |
| Os.FileNotAmongDirs | app/main.py:22 | After a successful `os.makedirs(d)`, no existing file is one of the directories of `d` |
| Os.MakeDirs | app/main.py:22 | FileNotFoundError is raised exactly when `d` is `""`; another error exactly when a file stands where one of its directories should be. On success no file changes and exactly `DirsOf(d)` is added to the directories |
| Os.MakeDirsIdempotent | app/main.py:22 | Because of `exist_ok=True`, making the same directories twice is the same as making them once |
| Os.MakeDirsAfterWrite | app/main.py:22-23 | Writing a file outside `DirsOf(d)` does not make `os.makedirs(d)` fail |
| Os.CopyTarget | app/main.py:23 | The copy is written at `dst` when `dst` is not a directory, and otherwise exactly at `DirPrefix(dst)` followed by the source's base name |
| Os.Copy | app/main.py:23 | A missing source gives FileNotFoundError and a directory source another error; FileNotFoundError arises exactly for a missing source, so copying a file onto itself raises another error. Success happens exactly when the source is a file and the target differs from it; then only the target changes, and it receives the source file |
| Os.WithExec | app/main.py:37 | The owner-execute bit is set and every other bit is kept |
| Os.WithExecKeepsBits | app/main.py:37 | No bit of the old mode is cleared |
| Os.Chmod | app/main.py:37 | Only the file's mode changes; its content and every other entry stay the same |
| Staging.Target | app/main.py:21-23 | The file a line writes begins with its destination path, and so lies inside the staging directory: it begins with `DirPrefix(stagingDir)` |
| Staging.StageLibrary | app/main.py:20-23 | A missing path changes nothing. Otherwise, if no exception is raised, only the target changes and it receives the library's content, and exactly the directories of the destination's parent are added. An exception leaves the files as they were. |
| Staging.StageLibraryRaises | app/main.py:22-23 | For an existing path, the exception that escapes is the one `os.makedirs` raised, with everything unchanged, or else exactly the one `shutil.copy` raised, with the directories `os.makedirs` made kept |
| Staging.StageLine | app/main.py:14-23 | A line without a chosen path raises OtherError and changes nothing; any other line stages its chosen path |
| Staging.StageAll | app/main.py:13-23 | The scan never removes a directory |
| Staging.Dependencies | app/main.py:10-13 | A missing `ldd` gives FileNotFoundError; an `ldd` that cannot be started, or whose output does not decode, gives another error. Otherwise every output line is staged, whatever exit status `ldd` returned |
| Staging.StageAllStops | app/main.py:13-23 | An exception ends the scan: the lines after it have no effect |
| Staging.CompletedScanSelectsEveryLine | app/main.py:13-18 | A scan that ends without an exception chose a library path in every line |
| Staging.LineWrite | app/main.py:20-23 | A line either writes nothing and leaves every file as it was, or writes one file inside the staging directory, raising nothing, and that file receives the chosen library's content |
| Staging.LineWrites | app/main.py:20-23 | One line writes at most one file |
| Staging.Written | app/main.py:13-23 | Every file the scan writes lies inside the staging directory |
| Staging.StageLineFramed | app/main.py:14-23 | One line adds at most the file it writes, and every other file keeps its content |
| Staging.StageAllAppend | app/main.py:13 | Scanning `a + b` is scanning `a` and then, unless that raised, scanning `b` from the state it left |
| Staging.StageAllFrame | app/main.py:13-23 | After a scan the files are those before it plus the ones it wrote, and every file it did not write keeps its content |
| Staging.StageAllLastWrite | app/main.py:13-23 | A file one line writes and no later line writes ends up holding the content that line's library had when it ran |
| Staging.MissingLibrariesChangeNothing | app/main.py:20 | Lines whose chosen paths do not exist (the vDSO, `not` from `=> not found`) leave the filesystem unchanged |
| Staging.StagingConfined | app/main.py:13-23 | The scan never removes a directory. It never creates, changes or removes a file outside the staging directory, that is, a file whose path does not begin with `DirPrefix(stagingDir)` |
| Staging.StageLineConfined | app/main.py:14-23 | One line creates, changes or removes no file whose path does not begin with `DirPrefix(stagingDir)` |
| Staging.StageLibraryConfined | app/main.py:20-23 | Staging one library creates, changes or removes no file whose path does not begin with `DirPrefix(stagingDir)` |
| Staging.DestNotAncestorOfItself | app/main.py:21-22 | For a path not ending in `/`, the destination is not one of the directories made for it |
| Staging.StageLibraryCopies | app/main.py:20-23 | An existing file whose destination is not a directory is copied to exactly that destination, and the parent directories are added |
| Staging.LaterCopyWins | app/main.py:13-23 | Two lines whose libraries share a destination: the scan succeeds, the destination holds the later library's content, and no other file changes |
| Staging.LaterLibraryWins | app/main.py:20-23 | The same, for the two chosen library paths |
| Staging.SecondCopy | app/main.py:20-23 | The second copy overwrites the file the first copy wrote |
| Staging.StageAllPair | app/main.py:13 | A two-line scan stages the second line only when the first raised nothing |
| Launch.ExitCode | app/main.py:55-61 | `sys.exit(returncode)` passes straight through the handlers. FileNotFoundError gives 2 and any other exception gives 1 |
| Launch.ExitStatus | app/main.py:55 | The OS status is the low eight bits: codes 0..255 unchanged, and return code `-s` (killed by signal `s`) gives `256 - s` |
| Launch.SuccessOnlyFromChild | app/main.py:55-61 | Status 0 happens if and only if the child returned 0 |
| Launch.CommandInChroot | app/main.py:43 | `"/"` followed by the binary's base name, with no other `/` |
| Launch.CopiedCommandName | app/main.py:34-43 | Copied into a directory, the command is named inside the new root by `/` followed by its own base name |
| Launch.CommandResolvesToCopy | app/main.py:34-43 | Inside the new root, the command path names the copied binary: root + command path = the copy's host path |
| Launch.Argv | app/main.py:44-48 | Exactly `unshare --pid --fork --mount-proc -- chroot <dir> <command> <args...>` |
| Launch.ParseArgv | app/main.py:44-48 | Recognises exactly the argvs of that shape |
| Launch.ParseArgvInverse | app/main.py:44-48 | The root, the command and every argument are recovered verbatim from the argv |
| Launch.ArgvInjective | app/main.py:44-48 | Different launches give different argvs |
| Launch.CopyBinary | app/main.py:34-37 | Fails exactly when `shutil.copy` does, with its exception. On success only the copy changes, and it holds the command's content with the mode `WithExec` gives |
| Launch.CopiedBinaryIsExecutable | app/main.py:34-37 | The copy has the command's content, is executable by its owner, and keeps all of the command's mode bits |
| Launch.Relay | app/main.py:48-55 | The child's return code is relayed. An unstartable child gives its exception, and undecodable output gives another error |
| Launch.Run | app/main.py:32-61 | A failed copy of the command changes nothing and raises its exception. Otherwise the filesystem is the one the scan leaves. `sys.exit(code)` is reached only after a copy and a scan without exception, with the return code of a child whose output decodes |
| Launch.MissingCommand | app/main.py:34-58 | A missing command exits with 2 and writes nothing |
| Launch.RunsChildInRoot | app/main.py:40-55 | After a successful copy and scan, the child runs with exactly `unshare ... chroot <dir> /<basename of command> <args...>` and its outcome is relayed |
| Launch.ScanUsesOriginalCommand | app/main.py:40 | Only what `ldd` says about the original command matters, not what it says about the copy |
| Launch.ScanFailureSkipsChild | app/main.py:40-61 | An exception in the scan ends `main` without running the child: 2 for FileNotFoundError, 1 otherwise |
| Host.FileSystem.constructor | app/main.py:31 | The object holds the given filesystem |
| Host.FileSystem.PathExists | app/main.py:20 | True exactly when a file or a directory is at the path |
| Host.FileSystem.MakeDirs | app/main.py:22 | Updates the directories as `Os.MakeDirs` says, or reports its exception and changes nothing |
| Host.FileSystem.Copy | app/main.py:23 | Updates the files as `Os.Copy` says and returns its target, or reports its exception and changes nothing |
| Host.FileSystem.Stat | app/main.py:37 | Returns the file's `st_mode` |
| Host.FileSystem.Chmod | app/main.py:37 | The new state is `Os.Chmod` of the old one |
| Host.CopyLine | app/main.py:14-23 | One loop iteration leaves the filesystem and the exception that `Staging.StageLine` gives |
| Host.CopyDependencies | app/main.py:8-23 | The loop leaves the filesystem and the escaping exception that `Staging.Dependencies` gives. Files copied before an exception stay copied |
| Host.RunMain | app/main.py:32-61 | Leaves the filesystem `Launch.Run` gives and returns the exit code `Launch.ExitCode` assigns to its outcome |

## Left out

- `subprocess.run`: both calls are oracles. What `unshare`, `chroot` and the child do to the filesystem is not modelled.
- `tempfile.TemporaryDirectory`: its creation and its removal afterwards are not modelled. The staging directory is a parameter, and `Launch.Run` and `Host.RunMain` end at the `sys.exit` call inside the `with` block.
- `sys.argv[3]` and `sys.argv[4:]` are parameters. An IndexError from a short `sys.argv` happens outside the `try` block and is not modelled.
- Printing and UTF-8 decoding: the child's output is reduced to one flag saying whether it decodes. A failure is the UnicodeDecodeError that exits with 1.
- Paths are compared verbatim. The model has no notion of the current directory, of `..`, of symbolic links, or of several spellings of one path reaching the same file.
- Staging.StagingConfined: containment is by spelling. A library path with `..` components, which the filesystem would resolve outside the staging directory, still counts as inside it.
- `Os.MakeDirs`: modelled as one atomic step. It does not create some ancestors and then fail, and it has no races.
- `Os.Copy`: the two errors `shutil.copy` raises when the target's parent is missing, or when the target is an existing directory inside a directory, are not modelled.
- `Os.Copy`: the copy takes the whole file, mode included. `shutil.copy` copies only the permission bits; the type bits of a regular file are the same anyway.
- `Host.FileSystem.Stat` and `Host.FileSystem.Chmod` require `p` to be a file. `main` calls them only on the path `shutil.copy` has just written, so the FileNotFoundError of a missing path cannot occur there.
- `Launch.ExitCode` and `Launch.ExitStatus`: `sys.exit` with a non-integer argument does not arise here and is not modelled.
- Remote images, registries, manifests and tar extraction do not appear in `app/main.py` and are not modelled.
