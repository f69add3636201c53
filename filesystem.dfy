/** The plugin installation directory (PluginsPath, "./plugins/") as the set
    of names of the sub-directories it holds. Which removals fail and which
    stats fail for a reason other than absence are fixed properties of the
    directory. */
module PluginsDir {

  /** "./plugins/": every plugin lives in PluginsPath + its id. */
  const PluginsPath := "./plugins/"

  /** The outcome of os.Stat on a path. */
  datatype StatResult = Exists | NotExist | StatFailed(msg: string)

  /** One entry of os.ReadDir(PluginsPath). */
  datatype DirEntry = DirEntry(name: string, isDir: bool)

  /** The directory a plugin id names. */
  function RepoPath(id: string): (path: string)
    ensures |path| == |PluginsPath| + |id| && path[..|PluginsPath|] == PluginsPath && path[|PluginsPath|..] == id
  {
    PluginsPath + id
  }

  /** What os.Stat reports for PluginsPath + name, given the directories
      present and the names whose stat fails for another reason. */
  function StatIn(dirs: set<string>, statFaults: set<string>, name: string): (r: StatResult)
    ensures r == NotExist <==> name !in statFaults && name !in dirs
    ensures r == Exists <==> name !in statFaults && name in dirs
  {
    if name in statFaults then StatFailed("stat " + PluginsPath + name)
    else if name in dirs then Exists
    else NotExist
  }

  class Dir {
    var dirs: set<string>
    const undeletable: set<string>
    const statFaults: set<string>

    constructor(dirs0: set<string>, undeletable0: set<string>, statFaults0: set<string>)
      ensures dirs == dirs0 && undeletable == undeletable0 && statFaults == statFaults0
    {
      dirs, undeletable, statFaults := dirs0, undeletable0, statFaults0;
    }

    /** os.Stat(PluginsPath + name). */
    function Stat(name: string): (r: StatResult)
      reads this
      ensures r == StatIn(dirs, statFaults, name)
    {
      StatIn(dirs, statFaults, name)
    }

    /** cleanDir: os.RemoveAll(PluginsPath/name). A missing path is not an
        error; a directory that cannot be removed is left in place. */
    method CleanDir(name: string) returns (err: bool)
      modifies this
      ensures err <==> name in old(dirs) && name in undeletable
      ensures name !in old(dirs) ==> !err && dirs == old(dirs)
      ensures dirs == if err then old(dirs) else old(dirs) - {name}
    {
      if name in dirs && name in undeletable {
        return true;
      }
      dirs := dirs - {name};
      return false;
    }

    /** A successful clone leaves the repository's directory in place. */
    method AddDir(name: string)
      modifies this
      ensures dirs == old(dirs) + {name}
    {
      dirs := dirs + {name};
    }
  }
}
