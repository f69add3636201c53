/** pluginmanager/Updater.go: for every plugin of the catalogue, clone or
    pull its repository, provision its dependencies, and record in the plugin
    table whether it is installed. */
module Updater {
  import opened Base
  import opened Registry
  import opened PluginsDir
  import opened Dependencies
  import opened CloneOrPull

  datatype InstallError =
    | GitFailed(gitError: GitError)
    | DependenciesFailed(id: string, depError: DepError)   // "error while updating dependencies for <id>: ..."

  /** installAndUpdate returns nil or an error, unless the dependency step ends the process. */
  datatype InstallOutcome = Installed | NotInstalled(err: InstallError) | ProcessEnded

  /** installAndUpdate for a plugin whose directory stats as stat. The
      dependency step runs only after the repository step succeeded. */
  function InstallAndUpdateRun(stat: StatResult, p: Plugin, git: Git,
                               langOf: string -> Result<string, DbError>, tools: Toolchain): (r: InstallOutcome)
    ensures CloneOrPullRun(stat, p, git).err.Some? ==> r == NotInstalled(GitFailed(CloneOrPullRun(stat, p, git).err.value))
    ensures r == Installed <==>
              CloneOrPullRun(stat, p, git).err.None? && UpdateDependencies(p.id, langOf, tools).outcome == Returned(None)
    ensures r == ProcessEnded <==>
              CloneOrPullRun(stat, p, git).err.None? && UpdateDependencies(p.id, langOf, tools).outcome == ProcessExit
    ensures r.NotInstalled? && r.err.DependenciesFailed? ==>
              r.err.id == p.id && UpdateDependencies(p.id, langOf, tools).outcome == Returned(Some(r.err.depError))
  {
    match CloneOrPullRun(stat, p, git).err
    case Some(e) => NotInstalled(GitFailed(e))
    case None =>
      match UpdateDependencies(p.id, langOf, tools).outcome
      case ProcessExit => ProcessEnded
      case Returned(None) => Installed
      case Returned(Some(e)) => NotInstalled(DependenciesFailed(p.id, e))
  }

  /** A Go or Java plugin is installed exactly when its repository step
      succeeds; a plugin of an unknown language never is. */
  lemma InstalledByLanguage(stat: StatResult, p: Plugin, git: Git,
                            langOf: string -> Result<string, DbError>, tools: Toolchain)
    ensures langOf(p.id) == Ok("Go") || langOf(p.id) == Ok("Java") ==>
              (InstallAndUpdateRun(stat, p, git, langOf, tools) == Installed <==> CloneOrPullRun(stat, p, git).err.None?)
    ensures langOf(p.id).Ok? && langOf(p.id).value !in {"Go", "Java", "Python"} ==>
              InstallAndUpdateRun(stat, p, git, langOf, tools).NotInstalled?
  {
    UpdateDependenciesOutcome(p.id, langOf, tools);
  }

  /** installAndUpdate against the plugins directory. */
  method InstallAndUpdate(fs: Dir, p: Plugin, git: Git, langOf: string -> Result<string, DbError>, tools: Toolchain)
    returns (r: InstallOutcome)
    modifies fs
    ensures r == InstallAndUpdateRun(old(fs.Stat(p.id)), p, git, langOf, tools)
    ensures fs.dirs == if Cloned(old(fs.dirs), fs.statFaults, p, git) then old(fs.dirs) + {p.id} else old(fs.dirs)
  {
    var run := CloneOrPull.CloneOrPull(fs, p, git);
    if run.err.Some? {
      return NotInstalled(GitFailed(run.err.value));
    }
    var deps := UpdateDependencies(p.id, langOf, tools);
    match deps.outcome
    case ProcessExit => r := ProcessEnded;
    case Returned(None) => r := Installed;
    case Returned(Some(e)) => r := NotInstalled(DependenciesFailed(p.id, e));
  }

  /** The plugin's directory is absent and the clone succeeds. */
  predicate Cloned(dirs: set<string>, statFaults: set<string>, p: Plugin, git: Git)
  {
    StatIn(dirs, statFaults, p.id) == NotExist && git.clone(RepoPath(p.id), CloneOptionsFor(p)).None?
  }

  /** The outcome for p when the directory holds dirs before the run. */
  function Outcome(dirs: set<string>, statFaults: set<string>, p: Plugin, git: Git,
                   langOf: string -> Result<string, DbError>, tools: Toolchain): InstallOutcome
  {
    InstallAndUpdateRun(StatIn(dirs, statFaults, p.id), p, git, langOf, tools)
  }

  /** The position of the first plugin whose provisioning ends the process, or |ps|. */
  function ExitIndex(ps: seq<Plugin>, dirs: set<string>, statFaults: set<string>, git: Git,
                     langOf: string -> Result<string, DbError>, tools: Toolchain): (n: nat)
    ensures n <= |ps|
    ensures forall k :: 0 <= k < n ==> Outcome(dirs, statFaults, ps[k], git, langOf, tools) != ProcessEnded
    ensures n < |ps| ==> Outcome(dirs, statFaults, ps[n], git, langOf, tools) == ProcessEnded
  {
    if ps == [] then 0
    else if Outcome(dirs, statFaults, ps[0], git, langOf, tools) == ProcessEnded then 0
    else 1 + ExitIndex(ps[1..], dirs, statFaults, git, langOf, tools)
  }

  /** The table after the first n plugins of ps have had their flag set to
      whether they were installed. */
  function Marked(ps: seq<Plugin>, n: nat, dirs: set<string>, statFaults: set<string>, git: Git,
                  langOf: string -> Result<string, DbError>, tools: Toolchain): (r: seq<Plugin>)
    requires n <= |ps|
    ensures |r| == |ps|
  {
    seq(|ps|, k requires 0 <= k < |ps| =>
      if k < n then ps[k].(installed := Outcome(dirs, statFaults, ps[k], git, langOf, tools) == Installed) else ps[k])
  }

  /** The directories the first n plugins of ps add. */
  function ClonedIds(ps: seq<Plugin>, n: nat, dirs: set<string>, statFaults: set<string>, git: Git): set<string>
    requires n <= |ps|
  {
    set k | 0 <= k < n && Cloned(dirs, statFaults, ps[k], git) :: ps[k].id
  }

  /** Marking keeps every row's key and every other column, and a plugin
      beyond the first n keeps its flag. */
  lemma MarkedSpec(ps: seq<Plugin>, n: nat, dirs: set<string>, statFaults: set<string>, git: Git,
                   langOf: string -> Result<string, DbError>, tools: Toolchain)
    requires n <= |ps|
    ensures var r := Marked(ps, n, dirs, statFaults, git, langOf, tools);
            && (forall k :: 0 <= k < |ps| ==> r[k].(installed := ps[k].installed) == ps[k])
            && (forall k :: 0 <= k < |ps| ==>
                  r[k].installed == if k < n then Outcome(dirs, statFaults, ps[k], git, langOf, tools) == Installed
                                    else ps[k].installed)
            && PluginIds(r) == PluginIds(ps)
            && (UniqueIds(ps) ==> UniqueIds(r))
  {
    var r := Marked(ps, n, dirs, statFaults, git, langOf, tools);
    assert forall k :: 0 <= k < |ps| ==> r[k].id == ps[k].id;
    forall x | x in PluginIds(r) ensures x in PluginIds(ps) {
      var p :| p in r && p.id == x;
      var k :| 0 <= k < |r| && r[k] == p;
      assert ps[k] in ps;
    }
    forall x | x in PluginIds(ps) ensures x in PluginIds(r) {
      var p :| p in ps && p.id == x;
      var k :| 0 <= k < |ps| && ps[k] == p;
      assert r[k] in r;
    }
  }

  /** Setting the flag of the next plugin extends the marked prefix by one;
      the keys are unique, so no other row is touched. */
  lemma MarkedStep(ps: seq<Plugin>, i: nat, dirs: set<string>, statFaults: set<string>, git: Git,
                   langOf: string -> Result<string, DbError>, tools: Toolchain)
    requires i < |ps| && UniqueIds(ps)
    ensures WithInstalled(Marked(ps, i, dirs, statFaults, git, langOf, tools), ps[i].id,
                          Outcome(dirs, statFaults, ps[i], git, langOf, tools) == Installed)
            == Marked(ps, i + 1, dirs, statFaults, git, langOf, tools)
  {
  }

  /** A plugin's directory is not one an earlier plugin added, because the ids are unique. */
  lemma StatUnchanged(ps: seq<Plugin>, i: nat, dirs: set<string>, statFaults: set<string>, git: Git)
    requires i < |ps| && UniqueIds(ps)
    ensures StatIn(dirs + ClonedIds(ps, i, dirs, statFaults, git), statFaults, ps[i].id) == StatIn(dirs, statFaults, ps[i].id)
  {
    assert ps[i].id !in ClonedIds(ps, i, dirs, statFaults, git);
  }

  /** The next plugin adds its directory exactly when it is cloned. */
  lemma ClonedIdsStep(ps: seq<Plugin>, i: nat, dirs: set<string>, statFaults: set<string>, git: Git)
    requires i < |ps|
    ensures ClonedIds(ps, i + 1, dirs, statFaults, git) ==
            ClonedIds(ps, i, dirs, statFaults, git) + (if Cloned(dirs, statFaults, ps[i], git) then {ps[i].id} else {})
  {
    var a, b := ClonedIds(ps, i + 1, dirs, statFaults, git), ClonedIds(ps, i, dirs, statFaults, git);
    if Cloned(dirs, statFaults, ps[i], git) {
      assert ps[i].id in a;
    }
  }

  datatype UpdaterError = ListFailed(cause: DbError) | NoPluginsFound   // "no plugins found while updating"

  /** Updater returns, or ends with the process. */
  datatype UpdaterOutcome = Done(err: Option<UpdaterError>) | Exited

  /** One round of Updater's loop for plugins[i], in the state the first i
      rounds leave. */
  method UpdateNext(reg: PluginRegistry, fs: Dir, plugins: seq<Plugin>, i: nat, ghost dirs0: set<string>, git: Git,
                    langOf: string -> Result<string, DbError>, tools: Toolchain) returns (ended: bool)
    requires i < |plugins| && UniqueIds(plugins)
    requires reg.Valid() && reg.plugins == Marked(plugins, i, dirs0, fs.statFaults, git, langOf, tools)
    requires fs.dirs == dirs0 + ClonedIds(plugins, i, dirs0, fs.statFaults, git)
    modifies reg, fs
    ensures reg.Valid() && reg.relations == old(reg.relations)
    ensures ended <==> Outcome(dirs0, fs.statFaults, plugins[i], git, langOf, tools) == ProcessEnded
    ensures reg.plugins == if ended then old(reg.plugins) else Marked(plugins, i + 1, dirs0, fs.statFaults, git, langOf, tools)
    ensures fs.dirs == dirs0 + ClonedIds(plugins, i + 1, dirs0, fs.statFaults, git)
  {
    var plugin := plugins[i];
    StatUnchanged(plugins, i, dirs0, fs.statFaults, git);
    ClonedIdsStep(plugins, i, dirs0, fs.statFaults, git);
    ghost var before := fs.dirs;
    var outcome := InstallAndUpdate(fs, plugin, git, langOf, tools);
    assert Cloned(before, fs.statFaults, plugin, git) == Cloned(dirs0, fs.statFaults, plugin, git);
    if outcome == ProcessEnded {
      return true;
    }
    MarkedSpec(plugins, i, dirs0, fs.statFaults, git, langOf, tools);
    MarkedStep(plugins, i, dirs0, fs.statFaults, git, langOf, tools);
    var ignored := reg.SetPluginInstalledStatus(plugin.id, outcome == Installed);
    return false;
  }

  /** Updater's loop over the listed plugins, which are the whole table. */
  method UpdateAll(reg: PluginRegistry, fs: Dir, git: Git,
                   langOf: string -> Result<string, DbError>, tools: Toolchain) returns (r: UpdaterOutcome)
    requires reg.Valid()
    modifies reg, fs
    ensures reg.Valid() && reg.relations == old(reg.relations)
    ensures var n := ExitIndex(old(reg.plugins), old(fs.dirs), fs.statFaults, git, langOf, tools);
            && r == (if n < |old(reg.plugins)| then Exited else Done(None))
            && reg.plugins == Marked(old(reg.plugins), n, old(fs.dirs), fs.statFaults, git, langOf, tools)
            && fs.dirs == old(fs.dirs) + ClonedIds(old(reg.plugins), if n < |old(reg.plugins)| then n + 1 else n,
                                                   old(fs.dirs), fs.statFaults, git)
  {
    var plugins := reg.plugins;
    ghost var dirs0 := fs.dirs;
    ghost var n := ExitIndex(plugins, dirs0, fs.statFaults, git, langOf, tools);
    assert reg.plugins == Marked(plugins, 0, dirs0, fs.statFaults, git, langOf, tools);
    assert fs.dirs == dirs0 + ClonedIds(plugins, 0, dirs0, fs.statFaults, git);
    var i := 0;
    while i < |plugins|
      invariant 0 <= i <= n
      invariant reg.Valid() && reg.relations == old(reg.relations)
      invariant reg.plugins == Marked(plugins, i, dirs0, fs.statFaults, git, langOf, tools)
      invariant fs.dirs == dirs0 + ClonedIds(plugins, i, dirs0, fs.statFaults, git)
    {
      var ended := UpdateNext(reg, fs, plugins, i, dirs0, git, langOf, tools);
      if ended {
        assert i == n;
        return Exited;
      }
      i := i + 1;
    }
    assert n == |plugins|;
    return Done(None);
  }

  /** Updater: list the plugins (listFault is the error GetPlugins reports, if
      any), then install and update each in turn and record the result; the
      status write's own error is ignored. A provisioning step that ends the
      process stops the loop before its plugin's status is written. */
  method Updater(reg: PluginRegistry, fs: Dir, listFault: Option<DbError>, git: Git,
                 langOf: string -> Result<string, DbError>, tools: Toolchain) returns (r: UpdaterOutcome)
    requires reg.Valid()
    modifies reg, fs
    ensures reg.Valid() && reg.relations == old(reg.relations)
    ensures listFault.Some? ==>
              r == Done(Some(ListFailed(listFault.value))) && reg.plugins == old(reg.plugins) && fs.dirs == old(fs.dirs)
    ensures listFault.None? && old(reg.plugins) == [] ==>
              r == Done(Some(NoPluginsFound)) && reg.plugins == old(reg.plugins) && fs.dirs == old(fs.dirs)
    ensures listFault.None? && old(reg.plugins) != [] ==>
              var n := ExitIndex(old(reg.plugins), old(fs.dirs), fs.statFaults, git, langOf, tools);
              && r == (if n < |old(reg.plugins)| then Exited else Done(None))
              && reg.plugins == Marked(old(reg.plugins), n, old(fs.dirs), fs.statFaults, git, langOf, tools)
              && fs.dirs == old(fs.dirs) + ClonedIds(old(reg.plugins), if n < |old(reg.plugins)| then n + 1 else n,
                                                     old(fs.dirs), fs.statFaults, git)
  {
    if listFault.Some? {
      return Done(Some(ListFailed(listFault.value)));
    }
    if |reg.plugins| <= 0 {
      return Done(Some(NoPluginsFound));
    }
    r := UpdateAll(reg, fs, git, langOf, tools);
  }
}
