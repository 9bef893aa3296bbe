/** The dependency provisioner: `<manager> install <pkg1> <pkg2> ...`, or
    nothing at all when no package is asked for. */
module Provision {
  import opened Process
  import opened Effects

  /** The package manager both entry points pass as `install_cmd_path`. */
  const Npm: string := "npm"

  const NoInstallResult: ExecResult := ExecResult(0, "", "")

  const InstallFailedPrefix: string := "Dependency install failed:\n"

  /** Python's `not packages`: the list is absent or empty. */
  predicate NoPackages(packages: Option<seq<string>>) {
    packages.None? || packages.value == []
  }

  function InstallCommand(packages: seq<string>, installCmdPath: string): Command {
    Command([installCmdPath, "install"] + packages, None)
  }

  /** `install_dependencies`.  No packages: the no-op success record and no
      process at all.  Otherwise exactly one process, the manager's `install`
      with the packages in the given order, unfiltered, and no working directory. */
  function InstallDependencies(run: Oracle, packages: Option<seq<string>>, installCmdPath: string): (s: Session)
    ensures |s.events| <= 1 && forall e | e in s.events :: e.Spawned?
    ensures Text.Trimmed(s.result.stdout) && Text.Trimmed(s.result.stderr)
    ensures NoPackages(packages) <==> Spawns(s.events) == []
    ensures NoPackages(packages) ==> s.result == NoInstallResult
    ensures !NoPackages(packages) ==>
              && Spawns(s.events) == [InstallCommand(packages.value, installCmdPath)]
              && Spawns(s.events)[0].argv[2..] == packages.value
              && Spawns(s.events)[0].cwd.None?
              && s.result == RunCommand(run, Spawns(s.events)[0])
  {
    if NoPackages(packages) then
      Session(NoInstallResult, [])
    else
      var cmd := InstallCommand(packages.value, installCmdPath);
      assert Spawns([Spawned(cmd)]) == [cmd];
      Session(RunCommand(run, cmd), [Spawned(cmd)])
  }

  /** The record both entry points return when the install exits nonzero:
      the install's code and stdout, and its stderr behind a fixed marker. */
  function InstallFailure(install: ExecResult): (r: ExecResult)
    ensures r.returncode == install.returncode && r.stdout == install.stdout
    ensures |r.stderr| >= |InstallFailedPrefix|
    ensures r.stderr[..|InstallFailedPrefix|] == InstallFailedPrefix
    ensures r.stderr[|InstallFailedPrefix|..] == install.stderr
  {
    ExecResult(install.returncode, install.stdout, InstallFailedPrefix + install.stderr)
  }

  /** The failure record's stderr is trimmed exactly when the install's own
      (trimmed) stderr was not empty: otherwise the marker's newline ends it. */
  lemma InstallFailureTrimmed(install: ExecResult)
    requires Text.Trimmed(install.stderr)
    ensures Text.Trimmed(InstallFailure(install).stderr) <==> install.stderr != []
  {
    var err := InstallFailure(install).stderr;
    assert err[0] == 'D';
    if install.stderr != [] {
      assert err[|err| - 1] == install.stderr[|install.stderr| - 1];
    } else {
      assert err[|err| - 1] == '\n';
    }
  }

  /** An install that times out is reported as a failed install whose
      diagnostic carries the timeout text. */
  lemma InstallTimeoutIsInstallFailure(run: Oracle, packages: Option<seq<string>>, installCmdPath: string)
    requires !NoPackages(packages)
    requires run(InstallCommand(packages.value, installCmdPath)).TimedOut?
    ensures InstallDependencies(run, packages, installCmdPath).result.returncode != 0
    ensures InstallFailure(InstallDependencies(run, packages, installCmdPath).result)
            == ExecResult(-2, "", InstallFailedPrefix + TimeoutMessage)
  {
  }
}
