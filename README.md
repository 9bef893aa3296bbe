# Node.js code execution pipeline, modelled in Dafny

This project models the execution core of an MCP server that runs Node.js
snippets for a caller (`src/code_execution.py`). The core is a small pipeline
with these stages:

- **`run_command`** runs one external command with a 60-second budget. It
  returns a three-field record (`returncode`, `stdout`, `stderr`) with both
  streams stripped of surrounding whitespace. On a timeout it returns the
  fixed record `(-2, "", "Error: Execution timed out")`.
- **`install_dependencies`** runs `npm install <pkg> ...`. When no packages
  are asked for, it returns the success record `(0, "", "")` without starting
  any process.
- **`run_in_tempdir`** is the disposable-workspace mode. It:
  1. creates a fresh directory;
  2. writes a `package.json` declaring module semantics;
  3. installs the dependencies;
  4. on success, writes the snippet as `script.js` and runs `node` on it from
     inside the directory;
  5. removes the directory in a `finally`, on every path.
- **`code_exec_node`** is the entry point. It either delegates to the
  workspace mode, or runs the inline pipeline: install, then `node -e <code>`.

After a failed install, both modes return the install's exit code and stdout.
The stderr is replaced by `"Dependency install failed:\n"` followed by the
install's stderr.

The model has six modules, one per file:

| module | file | what it holds |
|---|---|---|
| `Text` | `text.dfy` | Python's `str.strip()`, using exactly the 29 code points `str.isspace` accepts, proved equal to an independent characterisation (`StripUnique`). |
| `Process` | `process.dfy` | Commands, raw outcomes, the outcome record and `run_command`. |
| `Effects` | `effects.dfy` | The filesystem as a map from paths to entries. The ordered events of one invocation (directory made, file written, tree removed, process spawned) and how they act on that map. |
| `Provision` | `provision.dfy` | `install_dependencies` and the install-failure record. |
| `Workspace` | `workspace.dfy` | `run_in_tempdir` in two forms. `TempdirRun` is a function giving the record and the ordered events. `RunInTempdir` is a method on a `Host` object whose `files` map it changes in place; it is proved to perform exactly those events and to leave `files` as it found them. |
| `Facade` | `facade.dfy` | `code_exec_node` as a function over both modes, the same on a `Host`, and the properties the two modes share. |

Process execution is a parameter: an `Oracle` maps each command to what the
operating system reports for it, either `Completed(code, stdout, stderr)` or
`TimedOut`. Everything the pipeline computes from those answers is modelled
exactly. `Host` keeps a ghost journal of events. Its invariant `Valid()` says
`files` is the starting filesystem with the journal replayed on it, so a
method's cleanup follows from lemmas about the journal.

### Where the code and its documented intent differ

The model follows the code in each case:

- **Install working directory.** In workspace mode the install was meant to
  run inside the workspace. The code calls `install_dependencies`, which calls
  `run_command(cmd)` with no `cwd` (`src/code_execution.py:39-40`, `:62`). So
  the install runs in the server's own working directory in both modes.
  `Facade.AtMostTwoProcesses` states this: the install command's `cwd` is
  `None` in both modes.
- **Timeout code.** The timeout exit code was meant to be distinct from any
  real exit code. Python reports a child killed by signal 2 as exit code `-2`.
  `Process.TimeoutRecordNotExclusive` gives a completed process whose record
  equals the timeout record.
- **Trimmed stderr.** Both output streams were meant to be free of surrounding
  whitespace. That holds for stdout. It holds for stderr except after an
  install that failed with an empty stderr: the record's stderr then ends with
  the marker's newline. `Facade.OutputsTrimmed` proves both directions of this
  condition. `Facade.SilentInstallFailureKeepsNewline` is a concrete instance.
- **Spawn failures.** A failure to start a process (for example a missing
  `npm` or `node`) was meant to become a nonzero record. The code only catches
  `TimeoutExpired`, so such a failure propagates as an exception. This is not
  modelled; see below.

## Model

| member | source | states |
|---|---|---|
| Text.Strip | src/code_execution.py:14-15 | The stripped text is no longer than the input and neither starts nor ends with a whitespace character. |
| Text.StripUnique | src/code_execution.py:14-15 | Any cut of a string into a whitespace prefix, a middle that neither starts nor ends with whitespace, and a whitespace suffix yields exactly the stripped text. This is `str.strip()` characterised independently of how it is computed. |
| Text.StripCut | src/code_execution.py:14-15 | The stripped text is a contiguous slice of the input, and only whitespace is cut from each side. |
| Text.StripTrimmed | src/code_execution.py:14-15 | Text with no surrounding whitespace is returned unchanged. |
| Text.StripIdempotent | src/code_execution.py:14-15 | Stripping twice is the same as stripping once. |
| Process.RunCommand | src/code_execution.py:8-22 | A completed process keeps its exit code, and its streams become exactly their stripped forms. A timed-out one becomes the fixed record `(-2, "", "Error: Execution timed out")`. Both output streams are always trimmed. |
| Process.TimeoutRecordNotExclusive | src/code_execution.py:17-22 | A process that exits with -2 and prints the timeout text on stderr yields a record equal to the timeout record, so -2 does not identify a timeout. |
| Provision.InstallDependencies | src/code_execution.py:25-40 | No packages (absent or empty list) if and only if no process is spawned; the record is then `(0, "", "")`. Otherwise exactly one process, `[npm, "install"] + packages` in the given order with no working directory, and the record is that process's result. It spawns at most one event, which is a process, and both streams are trimmed. |
| Provision.InstallFailure | src/code_execution.py:63-68 | The failure record keeps the install's exit code and stdout. Its stderr is the marker `"Dependency install failed:\n"` followed by the install's stderr, unchanged. |
| Provision.InstallFailureTrimmed | src/code_execution.py:67 | For a trimmed install stderr, the failure record's stderr is trimmed if and only if the install's stderr was non-empty. |
| Provision.InstallTimeoutIsInstallFailure | src/code_execution.py:62-68 | An install that times out counts as a failed install: the request gets code -2, empty stdout, and the marker followed by the timeout text. |
| Workspace.TempdirRun | src/code_execution.py:42-77 | The workspace run first makes the directory, then writes `package.json` with `{"type": "module"}`, and last removes the directory. Every event touches only paths at or below the directory. |
| Workspace.Host.MakeTempDir | src/code_execution.py:56 | Given a name with nothing at or below it, the directory is added and the event is journalled. The file-replay invariant is kept. |
| Workspace.Host.WriteFile | src/code_execution.py:59-60 | A file in an existing directory is set to the text, and nothing else changes. The invariant is kept. |
| Workspace.Host.RemoveTree | src/code_execution.py:76-77 | The directory and every path below it are removed, and nothing else changes. The invariant is kept. |
| Workspace.RunInTempdir | src/code_execution.py:42-77 | The in-place run returns TempdirRun's record and journals exactly TempdirRun's events, in order. Afterwards the host's files are exactly what they were before, so nothing remains at or below the workspace. |
| Workspace.WorkspaceLeavesNoTrace | src/code_execution.py:56-77 | On every path (install failure, script failure, either one timing out), replaying the run's events on a filesystem with nothing at or below the fresh directory gives back that same filesystem. |
| Workspace.ProcessesSeePreparedWorkspace | src/code_execution.py:58-74 | Every spawned process finds the directory and `package.json` in place. The install runs before `script.js` exists. The script run finds `script.js` holding exactly the code. |
| Workspace.ScriptOnlyAfterInstallSuccess | src/code_execution.py:62-74 | `script.js` is written, and `node` is run on it, if and only if the install exited 0. After a failed install, `package.json` is the only file written. |
| Workspace.TempdirProcesses | src/code_execution.py:62-74 | The processes spawned are the install's processes, then `node <dir>/script.js` exactly when the install succeeded. |
| Facade.CodeExecNode | src/code_execution.py:105-116 | In both modes, the processes are the install's processes, followed by the mode's runner command only if the install succeeded. The record is then the runner's result; otherwise it is the install-failure record. |
| Facade.InstallFailureShortCircuits | src/code_execution.py:108-114 | After a failed install, in either mode, the record has the install's code and stdout and the marker followed by its stderr, and every spawned process is `npm`. |
| Facade.NoPackagesRunsCodeDirectly | src/code_execution.py:105-116 | With no packages, the runner is the only process and its result is the record. |
| Facade.AtMostTwoProcesses | src/code_execution.py:105-116 | One or two processes per request; exactly one when no packages are asked for. When there is an install, it comes first and has no working directory in both modes. The second process is always the runner. |
| Facade.RunnerCommandForm | src/code_execution.py:105-116 | The runner is `node <dir>/script.js` with the workspace as working directory, or `node -e <code>` with none. |
| Facade.OutputsTrimmed | src/code_execution.py:108-116 | stdout is always trimmed. stderr is trimmed if and only if the outcome is not an install failure with an empty install stderr. |
| Facade.SilentInstallFailureKeepsNewline | src/code_execution.py:109-114 | If `npm install left-pad` exits 1 with no output, the record is `(1, "", "Dependency install failed:\n")`, and its stderr is not trimmed. |
| Facade.InlineHello | src/code_execution.py:116 | Running `console.log("hi")` inline with no packages, where the process prints `hi\n`, spawns one process and returns `(0, "hi", "")`. |
| Facade.InlineTimeout | src/code_execution.py:116 | An inline snippet with no packages that times out returns `(-2, "", "Error: Execution timed out")`. |
| Facade.InlineRun | src/code_execution.py:108-116 | The inline pipeline records only process events. Its processes are the install's processes, followed by `node -e <code>` (no working directory) exactly when the install exited 0. The record is then that process's result; otherwise it is the install-failure record. |
| Facade.RunInline | src/code_execution.py:108-116 | The inline pipeline on a host returns the inline record and journals only process events; the files are unchanged. |
| Facade.CodeExecNodeOn | src/code_execution.py:80-116 | The entry point on a host returns CodeExecNode's record, journals exactly its events, and leaves the host's files as they were in both modes. |

## Left out

- Process execution (spawning, output capture, the 60-second timer and killing the child) is the `Oracle` parameter. The model uses only the command's answer.
- Decoding of the streams (`text=True`, including universal-newline translation) is left out. The oracle's streams are taken to be the already-decoded text.
- The effects of child processes on the filesystem are not modelled: spawn events leave `files` unchanged. In particular, the `node_modules` directory and lockfile that `npm install` writes are not modelled. Because the install has no `cwd`, they land outside the workspace.
- `mkdtemp`'s choice of name is left out: the name is a parameter, and the only requirement is that nothing exists at or below it. Uniqueness across concurrent requests is not modelled.
- Exceptions are not modelled: from `open`/`write`, from starting a process (missing executable, permissions), and from `rmtree` itself. So are the `finally` clause's behaviour when such an exception propagates and the mapping of spawn failures to a record that the code does not perform.
- Concurrency between requests is not modelled. Each request is modelled alone; the only state shared with the environment is the host's files.
- The `Annotated`/`Field` parameter metadata and the default argument values are not modelled: `packages=None`, `use_temp_dir=False`, `install_cmd_path="npm"`. The model passes every argument explicitly, and both call sites pass `npm`.
- The whitespace set is the one Python's `str.isspace` has with the Unicode tables of current releases; a later change to those tables is not followed.
