/** The tool entry point (`code_exec_node`): either the disposable workspace,
    or the inline pipeline — install into the ambient context, then
    `node -e <code>` with no working directory of its own. */
module Facade {
  import opened Text
  import opened Process
  import opened Effects
  import opened Provision
  import opened Workspace

  const InlineFlag: string := "-e"

  /** `node -e <code>`: the code is passed as an argument, no file, no working directory. */
  function InlineCommand(code: string): Command {
    Command([Node, InlineFlag, code], None)
  }

  /** The inline pipeline: install, stop with the failure record if the
      install exited nonzero, otherwise run the code inline. */
  function InlineRun(run: Oracle, code: string, packages: Option<seq<string>>): (s: Session)
    ensures var install := InstallDependencies(run, packages, Npm);
            var ok := install.result.returncode == 0;
            && (forall e | e in s.events :: e.Spawned?)
            && Spawns(s.events) == Spawns(install.events) + (if ok then [InlineCommand(code)] else [])
            && s.result == if ok then RunCommand(run, InlineCommand(code)) else InstallFailure(install.result)
  {
    var install := InstallDependencies(run, packages, Npm);
    if install.result.returncode != 0 then
      Session(InstallFailure(install.result), install.events)
    else
      SpawnsAppend(install.events, [Spawned(InlineCommand(code))]);
      SpawnsOf(Spawned(InlineCommand(code)));
      Session(RunCommand(run, InlineCommand(code)), install.events + [Spawned(InlineCommand(code))])
  }

  /** The command that runs the code in the chosen mode. */
  function RunnerCommand(code: string, useTempDir: bool, dir: Path): Command {
    if useTempDir then ScriptCommand(dir) else InlineCommand(code)
  }

  /** `code_exec_node`: in both modes the install (if any) comes first, and the
      code runs only if the install succeeded; the record is then the runner's,
      otherwise the install-failure record.  `dir` is the directory name the
      workspace would get and matters only when `useTempDir` holds. */
  function CodeExecNode(run: Oracle, code: string, packages: Option<seq<string>>, useTempDir: bool, dir: Path): (s: Session)
    ensures var install := InstallDependencies(run, packages, Npm);
            var ok := install.result.returncode == 0;
            && Spawns(s.events) == Spawns(install.events) + (if ok then [RunnerCommand(code, useTempDir, dir)] else [])
            && s.result == if ok then RunCommand(run, RunnerCommand(code, useTempDir, dir)) else InstallFailure(install.result)
  {
    if useTempDir then
      TempdirProcesses(run, code, packages, dir);
      TempdirRun(run, code, packages, dir)
    else
      InlineRun(run, code, packages)
  }

  /** A failed install ends the request in either mode: the record carries
      the install's code and stdout and its stderr behind the fixed marker,
      and no `node` process is started. */
  lemma InstallFailureShortCircuits(run: Oracle, code: string, packages: Option<seq<string>>, useTempDir: bool, dir: Path)
    requires InstallDependencies(run, packages, Npm).result.returncode != 0
    ensures var install := InstallDependencies(run, packages, Npm).result;
            var s := CodeExecNode(run, code, packages, useTempDir, dir);
            && s.result.returncode == install.returncode
            && s.result.stdout == install.stdout
            && s.result.stderr == InstallFailedPrefix + install.stderr
            && forall c | c in Spawns(s.events) :: c.argv[0] == Npm
  {
    var install := InstallDependencies(run, packages, Npm);
    assert !NoPackages(packages);
    var s := CodeExecNode(run, code, packages, useTempDir, dir);
    assert Spawns(s.events) == [InstallCommand(packages.value, Npm)];
  }

  /** With no packages, no install process runs and the code runs at once. */
  lemma NoPackagesRunsCodeDirectly(run: Oracle, code: string, packages: Option<seq<string>>, useTempDir: bool, dir: Path)
    requires NoPackages(packages)
    ensures var s := CodeExecNode(run, code, packages, useTempDir, dir);
            && Spawns(s.events) == [RunnerCommand(code, useTempDir, dir)]
            && s.result == RunCommand(run, RunnerCommand(code, useTempDir, dir))
  {
  }

  /** At most two processes per request: the install, always first, always
      with no working directory — even in workspace mode — and then `node`. */
  lemma AtMostTwoProcesses(run: Oracle, code: string, packages: Option<seq<string>>, useTempDir: bool, dir: Path)
    ensures var cs := Spawns(CodeExecNode(run, code, packages, useTempDir, dir).events);
            && 1 <= |cs| <= 2
            && (NoPackages(packages) ==> |cs| == 1)
            && (!NoPackages(packages) ==> cs[0] == InstallCommand(packages.value, Npm) && cs[0].cwd.None?)
            && (|cs| == 2 ==> cs[1] == RunnerCommand(code, useTempDir, dir))
  {
  }

  /** The runner is `node <dir>/script.js` run in the workspace, or `node -e <code>`
      run in the ambient directory. */
  lemma RunnerCommandForm(code: string, useTempDir: bool, dir: Path)
    ensures var c := RunnerCommand(code, useTempDir, dir);
            && c.argv[0] == Node
            && (useTempDir ==> c.argv == [Node, Join(dir, ScriptName)] && c.cwd == Some(dir))
            && (!useTempDir ==> c.argv == [Node, InlineFlag, code] && c.cwd.None?)
  {
  }

  /** stdout is always free of surrounding whitespace, and so is stderr except
      in one case: an install that failed with an empty stderr leaves the
      marker's trailing newline in place. */
  lemma OutputsTrimmed(run: Oracle, code: string, packages: Option<seq<string>>, useTempDir: bool, dir: Path)
    ensures var install := InstallDependencies(run, packages, Npm).result;
            var s := CodeExecNode(run, code, packages, useTempDir, dir);
            && Trimmed(s.result.stdout)
            && (Trimmed(s.result.stderr) <==> !(install.returncode != 0 && install.stderr == []))
  {
    var install := InstallDependencies(run, packages, Npm).result;
    if install.returncode != 0 {
      InstallFailureTrimmed(install);
    }
  }

  /** A concrete case of the untrimmed stderr: `npm install left-pad` exits 1 silently. */
  lemma SilentInstallFailureKeepsNewline(run: Oracle, code: string, useTempDir: bool, dir: Path)
    requires run(InstallCommand(["left-pad"], Npm)) == Completed(1, "", "")
    ensures CodeExecNode(run, code, Some(["left-pad"]), useTempDir, dir).result
            == ExecResult(1, "", "Dependency install failed:\n")
    ensures !Trimmed(CodeExecNode(run, code, Some(["left-pad"]), useTempDir, dir).result.stderr)
  {
    StripTrimmed("");
    var install := InstallDependencies(run, Some(["left-pad"]), Npm).result;
    assert install == ExecResult(1, "", "");
    InstallFailureShortCircuits(run, code, Some(["left-pad"]), useTempDir, dir);
    InstallFailureTrimmed(install);
  }

  /** `console.log("hi")` inline with no packages: one process, whose
      trailing newline is stripped from stdout. */
  lemma InlineHello(run: Oracle, dir: Path)
    requires run(InlineCommand("console.log(\"hi\")")) == Completed(0, "hi\n", "")
    ensures var s := CodeExecNode(run, "console.log(\"hi\")", None, false, dir);
            && s.result == ExecResult(0, "hi", "")
            && s.events == [Spawned(InlineCommand("console.log(\"hi\")"))]
  {
    assert "hi\n"[..2] == "hi" && "hi\n"[2..] == "\n";
    StripUnique("hi\n", 0, 2);
    StripTrimmed("");
  }

  /** A snippet that outlives the budget, inline with no packages, yields the
      fixed timeout record. */
  lemma InlineTimeout(run: Oracle, code: string, dir: Path)
    requires run(InlineCommand(code)).TimedOut?
    ensures CodeExecNode(run, code, None, false, dir).result == ExecResult(-2, "", "Error: Execution timed out")
  {
  }

  /** `code_exec_node` on a host: performs exactly the steps of CodeExecNode,
      and leaves the host's files as they were in both modes. */
  method CodeExecNodeOn(host: Host, run: Oracle, code: string, packages: Option<seq<string>>, useTempDir: bool, dir: Path)
    returns (r: ExecResult)
    requires host.Valid() && (useTempDir ==> FreshDir(host.files, dir))
    modifies host
    ensures host.Valid() && host.files == old(host.files)
    ensures r == CodeExecNode(run, code, packages, useTempDir, dir).result
    ensures host.log == old(host.log) + CodeExecNode(run, code, packages, useTempDir, dir).events
  {
    if useTempDir {
      r := RunInTempdir(host, run, code, packages, dir);
    } else {
      r := RunInline(host, run, code, packages);
    }
  }

  /** The inline pipeline on a host: only processes are entered in the journal. */
  method RunInline(host: Host, run: Oracle, code: string, packages: Option<seq<string>>)
    returns (r: ExecResult)
    requires host.Valid()
    modifies host
    ensures host.Valid() && host.files == old(host.files)
    ensures r == InlineRun(run, code, packages).result
    ensures host.log == old(host.log) + InlineRun(run, code, packages).events
  {
    ghost var log0 := host.log;
    var install := InstallDependencies(run, packages, Npm);
    host.Record(install.events);
    if install.result.returncode != 0 {
      r := InstallFailure(install.result);
    } else {
      var cmd := InlineCommand(code);
      r := RunCommand(run, cmd);
      host.Record([Spawned(cmd)]);
      assert host.log == log0 + (install.events + [Spawned(cmd)]);
    }
  }
}
