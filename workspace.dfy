/** The disposable workspace (`run_in_tempdir`): a fresh directory seeded
    with a module-type `package.json`, dependencies installed, the snippet
    written as `script.js` and run from there, and the directory removed on
    every way out. */
module Workspace {
  import opened Process
  import opened Effects
  import opened Provision

  const PackageJsonName: string := "package.json"
  const PackageJson: string := "{\"type\": \"module\"}"
  const ScriptName: string := "script.js"
  const Node: string := "node"

  lemma JoinUnder(dir: Path, name: string)
    ensures Under(Join(dir, name), dir)
  {
    assert Join(dir, name)[..|dir| + 1] == dir + "/";
  }

  /** `node <dir>/script.js`, run from inside the workspace. */
  function ScriptCommand(dir: Path): Command {
    Command([Node, Join(dir, ScriptName)], Some(dir))
  }

  /** The first two steps: create the directory, write `package.json`. */
  function Setup(dir: Path): (es: seq<Event>)
    ensures Spawns(es) == [] && forall e | e in es :: Inside(e, dir)
  {
    JoinUnder(dir, PackageJsonName);
    assert [Wrote(Join(dir, PackageJsonName), PackageJson)][1..] == [];
    [MadeDir(dir), Wrote(Join(dir, PackageJsonName), PackageJson)]
  }

  /** The steps after the install: on success write the script and run it;
      on every path remove the directory. */
  function Finish(ok: bool, code: string, dir: Path): (es: seq<Event>)
    ensures Spawns(es) == if ok then [ScriptCommand(dir)] else []
    ensures |es| >= 1 && es[|es| - 1] == Removed(dir) && forall e | e in es :: Inside(e, dir)
  {
    JoinUnder(dir, ScriptName);
    SpawnsOf(Removed(dir));
    if ok then
      var es := [Wrote(Join(dir, ScriptName), code), Spawned(ScriptCommand(dir)), Removed(dir)];
      assert es[1..][1..] == [Removed(dir)];
      es
    else
      [Removed(dir)]
  }

  /** What `run_in_tempdir` does with the workspace `dir` it was given by
      `mkdtemp`, in order, and the record it returns.  It creates the
      directory and writes `package.json` first, removes the directory last,
      and touches nothing outside it. */
  function TempdirRun(run: Oracle, code: string, packages: Option<seq<string>>, dir: Path): (s: Session)
    ensures 3 <= |s.events|
    ensures s.events[0] == MadeDir(dir)
    ensures s.events[1] == Wrote(Join(dir, PackageJsonName), PackageJson)
    ensures s.events[|s.events| - 1] == Removed(dir)
    ensures forall e | e in s.events :: Inside(e, dir)
  {
    var install := InstallDependencies(run, packages, Npm);
    var ok := install.result.returncode == 0;
    var tail := Finish(ok, code, dir);
    var events := Setup(dir) + install.events + tail;
    assert events[|events| - 1] == tail[|tail| - 1];
    Session(if ok then RunCommand(run, ScriptCommand(dir)) else InstallFailure(install.result), events)
  }

  /** The machine the pipeline runs on: its files, and a journal of what was
      done to it since it was set up. */
  class Host {
    var files: FileSystem
    ghost var log: seq<Event>
    ghost const origin: FileSystem

    /** The files are always the original ones with the journal replayed on them. */
    ghost predicate Valid()
      reads this
    {
      files == ApplyAll(origin, log)
    }

    constructor (initial: FileSystem)
      ensures Valid() && files == initial && log == []
    {
      files := initial;
      log := [];
      origin := initial;
    }

    /** Performs one filesystem event and enters it in the journal. */
    method Perform(e: Event)
      requires Valid() && !e.Spawned?
      modifies this
      ensures Valid()
      ensures files == Apply(old(files), e) && log == old(log) + [e]
    {
      ApplyAllAppend(origin, log, [e]);
      ApplyAllSingle(files, e);
      files := Apply(files, e);
      log := log + [e];
    }

    /** `tempfile.mkdtemp`, with the fresh name supplied by the caller. */
    method MakeTempDir(dir: Path)
      requires Valid() && FreshDir(files, dir)
      modifies this
      ensures Valid()
      ensures files == Apply(old(files), MadeDir(dir)) && log == old(log) + [MadeDir(dir)]
    {
      Perform(MadeDir(dir));
    }

    /** `open(os.path.join(dir, name), "w").write(text)`: the directory must exist. */
    method WriteFile(dir: Path, name: string, text: string)
      requires Valid() && dir in files && files[dir] == Dir
      modifies this
      ensures Valid()
      ensures files == Apply(old(files), Wrote(Join(dir, name), text))
      ensures log == old(log) + [Wrote(Join(dir, name), text)]
    {
      Perform(Wrote(Join(dir, name), text));
    }

    /** `shutil.rmtree(dir)`: the directory and everything below it. */
    method RemoveTree(dir: Path)
      requires Valid() && dir in files && files[dir] == Dir
      modifies this
      ensures Valid()
      ensures files == Apply(old(files), Removed(dir)) && log == old(log) + [Removed(dir)]
    {
      Perform(Removed(dir));
    }

    /** Enters processes a stage has spawned in the journal. */
    ghost method Record(es: seq<Event>)
      requires Valid() && forall e | e in es :: e.Spawned?
      modifies this
      ensures Valid()
      ensures files == old(files) && log == old(log) + es
    {
      ApplyAllAppend(origin, log, es);
      SpawnsOnlyKeepFiles(files, es);
      log := log + es;
    }
  }

  /** `run_in_tempdir`: performs exactly the steps of TempdirRun, returns its
      record, and leaves the files of the host exactly as it found them. */
  method RunInTempdir(host: Host, run: Oracle, code: string, packages: Option<seq<string>>, dir: Path)
    returns (r: ExecResult)
    requires host.Valid() && FreshDir(host.files, dir)
    modifies host
    ensures host.Valid()
    ensures r == TempdirRun(run, code, packages, dir).result
    ensures host.log == old(host.log) + TempdirRun(run, code, packages, dir).events
    ensures host.files == old(host.files) && FreshDir(host.files, dir)
  {
    ghost var fs := host.files;
    ghost var log0 := host.log;
    WorkspaceNamesDistinct(dir);
    host.MakeTempDir(dir);
    host.WriteFile(dir, PackageJsonName, PackageJson);
    var install := InstallDependencies(run, packages, Npm);
    host.Record(install.events);
    var ok := install.result.returncode == 0;
    if !ok {
      r := InstallFailure(install.result);
    } else {
      host.WriteFile(dir, ScriptName, code);
      var cmd := ScriptCommand(dir);
      r := RunCommand(run, cmd);
      host.Record([Spawned(cmd)]);
    }
    JournalOfRun(log0, host.log, install.events, ok, code, dir);
    host.RemoveTree(dir);
    TempdirShape(run, code, packages, dir);
    ghost var events := TempdirRun(run, code, packages, dir).events;
    assert host.files == fs by {
      ApplyAllAppend(host.origin, log0, events);
      WorkspaceLeavesNoTrace(fs, run, code, packages, dir);
    }
  }

  /** The journal of a run, regrouped as the setup, the install and the finish. */
  lemma JournalOfRun(log0: seq<Event>, mid: seq<Event>, ie: seq<Event>, ok: bool, code: string, dir: Path)
    requires mid == if ok then log0 + [MadeDir(dir)] + [Wrote(Join(dir, PackageJsonName), PackageJson)] + ie
                                 + [Wrote(Join(dir, ScriptName), code)] + [Spawned(ScriptCommand(dir))]
                    else log0 + [MadeDir(dir)] + [Wrote(Join(dir, PackageJsonName), PackageJson)] + ie
    ensures mid + [Removed(dir)] == log0 + (Setup(dir) + ie + Finish(ok, code, dir))
  {
  }

  /** The events of a run are the setup, the install's process (if any), and the finish. */
  lemma TempdirShape(run: Oracle, code: string, packages: Option<seq<string>>, dir: Path)
    ensures var install := InstallDependencies(run, packages, Npm);
            TempdirRun(run, code, packages, dir).events
            == Setup(dir) + install.events + Finish(install.result.returncode == 0, code, dir)
  {
  }

  /** `m` differs from `fs` only at or below `dir`. */
  ghost predicate OnlyInside(fs: FileSystem, m: FileSystem, dir: Path) {
    forall p | !Under(p, dir) :: (p in m <==> p in fs) && (p in m ==> m[p] == fs[p])
  }

  /** Removing a fresh directory undoes whatever was done inside it. */
  lemma RemovingWorkspaceRestores(fs: FileSystem, m: FileSystem, dir: Path)
    requires FreshDir(fs, dir) && OnlyInside(fs, m, dir)
    ensures Apply(m, Removed(dir)) == fs
  {
    var r := Apply(m, Removed(dir));
    assert forall p | p in r :: p in fs && r[p] == fs[p];
    assert forall p | p in fs :: p in r;
  }

  /** Events that only spawn processes leave the files alone. */
  lemma {:induction false} SpawnsOnlyKeepFiles(fs: FileSystem, es: seq<Event>)
    requires forall e | e in es :: e.Spawned?
    ensures ApplyAll(fs, es) == fs
    decreases |es|
  {
    if es != [] {
      assert es[0] in es;
      assert forall e | e in es[1..] :: e in es;
      SpawnsOnlyKeepFiles(fs, es[1..]);
    }
  }

  /** Cleanup on every path: starting from files with nothing at or below
      the fresh `dir`, a run of `run_in_tempdir` ends with exactly the files
      it started with, whether the install failed, the script failed, or
      either timed out. */
  lemma WorkspaceLeavesNoTrace(fs: FileSystem, run: Oracle, code: string, packages: Option<seq<string>>, dir: Path)
    requires FreshDir(fs, dir)
    ensures ApplyAll(fs, TempdirRun(run, code, packages, dir).events) == fs
  {
    var es := TempdirRun(run, code, packages, dir).events;
    var body := es[..|es| - 1];
    assert es == body + [Removed(dir)];
    assert forall e | e in body :: e in es;
    ApplyAllOutside(fs, body, dir);
    ApplyAllAppend(fs, body, [Removed(dir)]);
    assert [Removed(dir)][1..] == [];
    RemovingWorkspaceRestores(fs, ApplyAll(fs, body), dir);
  }

  /** The two file names differ, and neither is the directory itself. */
  lemma WorkspaceNamesDistinct(dir: Path)
    ensures Join(dir, ScriptName) != Join(dir, PackageJsonName)
    ensures Join(dir, ScriptName) != dir && Join(dir, PackageJsonName) != dir
  {
    assert Join(dir, ScriptName)[|dir| + 1] == 's';
    assert Join(dir, PackageJsonName)[|dir| + 1] == 'p';
  }

  /** Every process `run_in_tempdir` spawns finds the workspace directory
      and its `package.json` in place.  The install runs before `script.js`
      exists; the script run finds `script.js` holding exactly the code. */
  lemma ProcessesSeePreparedWorkspace(fs: FileSystem, run: Oracle, code: string,
                                      packages: Option<seq<string>>, dir: Path, k: nat)
    requires FreshDir(fs, dir)
    requires k < |TempdirRun(run, code, packages, dir).events|
    requires TempdirRun(run, code, packages, dir).events[k].Spawned?
    ensures var es := TempdirRun(run, code, packages, dir).events;
            var view := ApplyAll(fs, es[..k]);
            && dir in view && view[dir] == Dir
            && Join(dir, PackageJsonName) in view && view[Join(dir, PackageJsonName)] == File(PackageJson)
            && (es[k].command == ScriptCommand(dir) ==>
                  Join(dir, ScriptName) in view && view[Join(dir, ScriptName)] == File(code))
            && (es[k].command != ScriptCommand(dir) ==> Join(dir, ScriptName) !in view)
  {
    var install := InstallDependencies(run, packages, Npm);
    TempdirShape(run, code, packages, dir);
    ViewAtSpawn(fs, install.events, install.result.returncode == 0, code, dir, k);
  }

  lemma ViewAtSpawn(fs: FileSystem, ie: seq<Event>, ok: bool, code: string, dir: Path, k: nat)
    requires FreshDir(fs, dir)
    requires |ie| <= 1 && forall e | e in ie :: e.Spawned? && e.command.cwd.None?
    requires k < |Setup(dir) + ie + Finish(ok, code, dir)|
    requires (Setup(dir) + ie + Finish(ok, code, dir))[k].Spawned?
    ensures var es := Setup(dir) + ie + Finish(ok, code, dir);
            var view := ApplyAll(fs, es[..k]);
            && dir in view && view[dir] == Dir
            && Join(dir, PackageJsonName) in view && view[Join(dir, PackageJsonName)] == File(PackageJson)
            && (es[k].command == ScriptCommand(dir) ==>
                  Join(dir, ScriptName) in view && view[Join(dir, ScriptName)] == File(code))
            && (es[k].command != ScriptCommand(dir) ==> Join(dir, ScriptName) !in view)
  {
    var script := Join(dir, ScriptName);
    var prepared := PreparedView(fs, dir);
    SetupView(fs, ie, dir);
    WorkspaceNamesDistinct(dir);
    JoinUnder(dir, ScriptName);
    assert script !in prepared;
    SpawnPositions(ie, ok, code, dir, k);
    if k == 3 + |ie| {
      ApplyAllAppend(fs, Setup(dir) + ie, [Wrote(script, code)]);
      ApplyAllSingle(prepared, Wrote(script, code));
    } else {
      assert Setup(dir) + [] == Setup(dir);
      SetupView(fs, [], dir);
    }
  }

  /** The workspace as the setup leaves it. */
  function PreparedView(fs: FileSystem, dir: Path): FileSystem {
    fs[dir := Dir][Join(dir, PackageJsonName) := File(PackageJson)]
  }

  /** The setup, then any number of processes: the workspace is prepared. */
  lemma SetupView(fs: FileSystem, ie: seq<Event>, dir: Path)
    requires forall e | e in ie :: e.Spawned?
    ensures ApplyAll(fs, Setup(dir) + ie) == PreparedView(fs, dir)
  {
    var pj := Join(dir, PackageJsonName);
    assert Setup(dir)[1..] == [Wrote(pj, PackageJson)];
    ApplyAllSingle(Apply(fs, MadeDir(dir)), Wrote(pj, PackageJson));
    ApplyAllAppend(fs, Setup(dir), ie);
    SpawnsOnlyKeepFiles(PreparedView(fs, dir), ie);
  }

  /** A process of a run is either the install, right after the setup, or
      the script, right after `script.js` is written. */
  lemma SpawnPositions(ie: seq<Event>, ok: bool, code: string, dir: Path, k: nat)
    requires |ie| <= 1 && forall e | e in ie :: e.Spawned? && e.command.cwd.None?
    requires k < |Setup(dir) + ie + Finish(ok, code, dir)|
    requires (Setup(dir) + ie + Finish(ok, code, dir))[k].Spawned?
    ensures var es := Setup(dir) + ie + Finish(ok, code, dir);
            || (k == 2 && |ie| == 1 && es[..k] == Setup(dir) && es[k].command.cwd.None?)
            || (k == 3 + |ie| && ok && es[..k] == Setup(dir) + ie + [Wrote(Join(dir, ScriptName), code)]
                && es[k] == Spawned(ScriptCommand(dir)))
  {
    var es := Setup(dir) + ie + Finish(ok, code, dir);
    if k < 2 + |ie| {
      assert es[k] == ie[k - 2];
      assert es[k] in ie;
      assert es[..k] == Setup(dir);
    } else {
      assert es[k] == Finish(ok, code, dir)[k - 2 - |ie|];
      assert es[..k] == Setup(dir) + ie + Finish(ok, code, dir)[..k - 2 - |ie|];
    }
  }

  /** `script.js` is written, and `node` run on it, exactly when the install
      succeeded (or was skipped); after a failed install `package.json` is the
      only file ever written. */
  lemma ScriptOnlyAfterInstallSuccess(run: Oracle, code: string, packages: Option<seq<string>>, dir: Path)
    ensures var es := TempdirRun(run, code, packages, dir).events;
            var ok := InstallDependencies(run, packages, Npm).result.returncode == 0;
            && (Wrote(Join(dir, ScriptName), code) in es <==> ok)
            && (Spawned(ScriptCommand(dir)) in es <==> ok)
            && (!ok ==> forall e | e in es && e.Wrote? :: e.path == Join(dir, PackageJsonName))
  {
    var install := InstallDependencies(run, packages, Npm);
    var ok := install.result.returncode == 0;
    TempdirShape(run, code, packages, dir);
    WorkspaceNamesDistinct(dir);
    WhereScriptEventsOccur(install.events, Wrote(Join(dir, ScriptName), code), code, dir);
    WhereScriptEventsOccur(install.events, Spawned(ScriptCommand(dir)), code, dir);
    if !ok {
      FailedInstallWritesOnlyPackageJson(install.events, code, dir);
    }
  }

  /** The script's own two events occur neither in the setup nor among the
      install's processes, so they occur in a run exactly when Finish has them. */
  lemma WhereScriptEventsOccur(ie: seq<Event>, x: Event, code: string, dir: Path)
    requires forall e | e in ie :: e.Spawned? && e.command.cwd.None?
    requires x == Wrote(Join(dir, ScriptName), code) || x == Spawned(ScriptCommand(dir))
    ensures forall ok: bool :: x in Setup(dir) + ie + Finish(ok, code, dir) <==> ok
  {
    WorkspaceNamesDistinct(dir);
    forall ok: bool ensures x in Setup(dir) + ie + Finish(ok, code, dir) <==> ok {
      InThree(x, Setup(dir), ie, Finish(ok, code, dir));
    }
  }

  lemma FailedInstallWritesOnlyPackageJson(ie: seq<Event>, code: string, dir: Path)
    requires forall e | e in ie :: e.Spawned?
    ensures forall e | e in Setup(dir) + ie + Finish(false, code, dir) && e.Wrote? ::
              e.path == Join(dir, PackageJsonName)
  {
    forall e | e in Setup(dir) + ie + Finish(false, code, dir) && e.Wrote?
      ensures e.path == Join(dir, PackageJsonName)
    {
      InThree(e, Setup(dir), ie, Finish(false, code, dir));
    }
  }

  lemma InThree<T>(x: T, a: seq<T>, b: seq<T>, c: seq<T>)
    ensures x in a + b + c <==> x in a || x in b || x in c
  {
  }

  /** The processes of one run, in order: the install (if any packages were
      asked for), then `node` on the script only if the install succeeded. */
  lemma TempdirProcesses(run: Oracle, code: string, packages: Option<seq<string>>, dir: Path)
    ensures var install := InstallDependencies(run, packages, Npm);
            Spawns(TempdirRun(run, code, packages, dir).events)
            == Spawns(install.events) + (if install.result.returncode == 0 then [ScriptCommand(dir)] else [])
  {
    var install := InstallDependencies(run, packages, Npm);
    TempdirShape(run, code, packages, dir);
    SpawnsOfRun(install.events, install.result.returncode == 0, code, dir);
  }

  lemma SpawnsOfRun(ie: seq<Event>, ok: bool, code: string, dir: Path)
    ensures Spawns(Setup(dir) + ie + Finish(ok, code, dir))
            == Spawns(ie) + (if ok then [ScriptCommand(dir)] else [])
  {
    SpawnsAppend(Setup(dir) + ie, Finish(ok, code, dir));
    SpawnsAppend(Setup(dir), ie);
  }
}
