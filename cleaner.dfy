/** pluginmanager/Cleaner.go: remove installation directories that belong to
    no plugin, and uninstall one plugin on request. The plugin lookup is a
    function of the id; Registry gives the two lookups the repository has. */
module Cleaner {
  import opened Base
  import opened Registry
  import opened PluginsDir

  datatype CleanError =
    | DbFailed(cause: DbError)
    | FsFailed(msg: string)

  /** connection.GetPluginById, as written: gorm's Find reports no error for a
      missing row and hands back the zero record. */
  function FindLookup(ps: seq<Plugin>): string -> Lookup<Plugin>
  {
    (id: string) => Found(FindOrZero(ps, id))
  }

  /** db.GetPluginById: gorm's First reports a missing row as RecordNotFound. */
  function FirstLookup(ps: seq<Plugin>): string -> Lookup<Plugin>
  {
    (id: string) => FindById(ps, id)
  }

  /** An entry the cleaner deletes when it can: a directory whose name is no
      listed plugin id and whose lookup reports not-found. */
  predicate Stale(e: DirEntry, listed: set<string>, lookup: string -> Lookup<Plugin>)
  {
    e.name !in listed && e.isDir && lookup(e.name).NotFound?
  }

  function StaleNames(contents: seq<DirEntry>, listed: set<string>, lookup: string -> Lookup<Plugin>): set<string>
  {
    set e | e in contents && Stale(e, listed, lookup) :: e.name
  }

  /** What a successful pass removes: the stale names whose removal does not fail. */
  function Removed(contents: seq<DirEntry>, listed: set<string>, lookup: string -> Lookup<Plugin>, undeletable: set<string>): set<string>
  {
    StaleNames(contents, listed, lookup) - undeletable
  }

  /** Only directories are removed; never one named by a listed plugin, never
      one whose lookup failed with another error or found a plugin, and never
      one whose removal fails. */
  lemma RemovedSpec(contents: seq<DirEntry>, listed: set<string>, lookup: string -> Lookup<Plugin>, undeletable: set<string>)
    ensures forall n :: n in Removed(contents, listed, lookup, undeletable) <==>
              n !in listed && n !in undeletable && lookup(n).NotFound?
              && exists k :: 0 <= k < |contents| && contents[k] == DirEntry(n, true)
  {
    forall n ensures n in Removed(contents, listed, lookup, undeletable) <==>
                     n !in listed && n !in undeletable && lookup(n).NotFound?
                     && exists k :: 0 <= k < |contents| && contents[k] == DirEntry(n, true) {
      if n in StaleNames(contents, listed, lookup) {
        var e :| e in contents && Stale(e, listed, lookup) && e.name == n;
        var k :| 0 <= k < |contents| && contents[k] == e;
        assert contents[k] == DirEntry(n, true);
      }
      if exists k :: 0 <= k < |contents| && contents[k] == DirEntry(n, true) {
        var k :| 0 <= k < |contents| && contents[k] == DirEntry(n, true);
        assert contents[k] in contents;
      }
    }
  }

  /** With the lookup the source uses, no lookup reports not-found, so no
      directory is ever stale. */
  lemma FindLookupNeverStale(contents: seq<DirEntry>, listed: set<string>, ps: seq<Plugin>)
    ensures StaleNames(contents, listed, FindLookup(ps)) == {}
  {
    forall e | e in contents ensures !Stale(e, listed, FindLookup(ps)) {
      assert FindLookup(ps)(e.name).Found?;
    }
  }

  /** With the lookup by First, a directory is stale exactly when no plugin of
      the table has its name and none is listed. */
  lemma FirstLookupStale(contents: seq<DirEntry>, listed: set<string>, ps: seq<Plugin>)
    ensures forall n :: n in StaleNames(contents, listed, FirstLookup(ps)) <==>
              n !in listed && n !in PluginIds(ps) && DirEntry(n, true) in contents
  {
    forall n ensures n in StaleNames(contents, listed, FirstLookup(ps)) <==>
                     n !in listed && n !in PluginIds(ps) && DirEntry(n, true) in contents {
      if DirEntry(n, true) in contents && n !in listed && n !in PluginIds(ps) {
        assert Stale(DirEntry(n, true), listed, FirstLookup(ps));
      }
    }
  }

  /** The case that shows the difference: an empty plugin table and one
      leftover directory. The lookup as written keeps it; First removes it. */
  lemma LeftoverDirectoryExample()
    ensures StaleNames([DirEntry("old", true)], {}, FindLookup([])) == {}
    ensures StaleNames([DirEntry("old", true)], {}, FirstLookup([])) == {"old"}
  {
    FindLookupNeverStale([DirEntry("old", true)], {}, []);
    FirstLookupStale([DirEntry("old", true)], {}, []);
    assert PluginIds([]) == {};
  }

  /** CleanPlugins: list the plugins, list the directory, and remove each stale
      directory; a failed removal is skipped. Failing to list either side
      changes nothing. The listing of PluginsPath, contents, is an input of
      its own, like the plugin listing; it is not derived from fs.dirs. */
  method CleanPlugins(fs: Dir, listing: Result<seq<Plugin>, DbError>, contents: Result<seq<DirEntry>, string>,
                      lookup: string -> Lookup<Plugin>) returns (err: Option<CleanError>)
    modifies fs
    ensures listing.Err? ==> err == Some(DbFailed(listing.error)) && fs.dirs == old(fs.dirs)
    ensures listing.Ok? && contents.Err? ==> err == Some(FsFailed(contents.error)) && fs.dirs == old(fs.dirs)
    ensures listing.Ok? && contents.Ok? ==>
              err.None? && fs.dirs == old(fs.dirs) - Removed(contents.value, PluginIds(listing.value), lookup, fs.undeletable)
  {
    if listing.Err? {
      return Some(DbFailed(listing.error));
    }
    var plugins := listing.value;
    var m: set<string> := {};
    var i := 0;
    while i < |plugins|
      invariant 0 <= i <= |plugins|
      invariant m == PluginIds(plugins[..i])
    {
      assert forall p :: p in plugins[..i + 1] <==> p in plugins[..i] || p == plugins[i];
      m := m + {plugins[i].id};
      i := i + 1;
    }
    assert plugins[..i] == plugins;
    if contents.Err? {
      return Some(FsFailed(contents.error));
    }
    var entries := contents.value;
    var j := 0;
    while j < |entries|
      invariant 0 <= j <= |entries|
      invariant fs.dirs == old(fs.dirs) - Removed(entries[..j], m, lookup, fs.undeletable)
    {
      var file := entries[j];
      assert forall e :: e in entries[..j + 1] <==> e in entries[..j] || e == file;
      if file.name !in m {
        if file.isDir {
          var found := lookup(file.name);
          if found.NotFound? {
            var failed := fs.CleanDir(file.name);
          }
        }
      }
      j := j + 1;
    }
    assert entries[..j] == entries;
    return None;
  }

  /** CleanPlugin: look the plugin up, remove its directory, then record it
      as not installed. Each failure stops the sequence and is returned. */
  method CleanPlugin(id: string, fs: Dir, reg: PluginRegistry, lookup: string -> Lookup<Plugin>)
    returns (plugin: Plugin, err: Option<CleanError>)
    requires reg.Valid()
    modifies fs, reg
    ensures reg.Valid()
    ensures !lookup(id).Found? ==>
              plugin == ZeroPlugin && err == Some(DbFailed(LookupError(lookup(id))))
              && fs.dirs == old(fs.dirs) && reg.plugins == old(reg.plugins)
    ensures lookup(id).Found? && id in old(fs.dirs) && id in fs.undeletable ==>
              plugin == lookup(id).value && err.Some? && err.value.FsFailed?
              && fs.dirs == old(fs.dirs) && reg.plugins == old(reg.plugins)
    ensures lookup(id).Found? && (id !in old(fs.dirs) || id !in fs.undeletable) ==>
              plugin == lookup(id).value && fs.dirs == old(fs.dirs) - {id}
              && (id in PluginIds(old(reg.plugins)) ==> err.None? && reg.plugins == WithInstalled(old(reg.plugins), id, false))
              && (id !in PluginIds(old(reg.plugins)) ==> err == Some(DbFailed(RecordNotFound)) && reg.plugins == old(reg.plugins))
    ensures reg.relations == old(reg.relations)
  {
    var found := lookup(id);
    if !found.Found? {
      return ZeroPlugin, Some(DbFailed(LookupError(found)));
    }
    plugin := found.value;
    var failed := fs.CleanDir(id);
    if failed {
      return plugin, Some(FsFailed("remove " + PluginsPath + id));
    }
    var status := reg.SetPluginInstalledStatus(id, false);
    if status.Some? {
      return plugin, Some(DbFailed(status.value));
    }
    return plugin, None;
  }

  /** With the lookup as written, an unknown id is not refused: its directory
      is removed and only the status update reports RecordNotFound. */
  lemma FindLookupAcceptsUnknownId(ps: seq<Plugin>, id: string)
    requires id !in PluginIds(ps)
    ensures FindLookup(ps)(id) == Found(ZeroPlugin)
  {
  }

  /** With the lookup by First, an unknown id is refused before anything is removed. */
  lemma FirstLookupRefusesUnknownId(ps: seq<Plugin>, id: string)
    ensures FirstLookup(ps)(id).NotFound? <==> id !in PluginIds(ps)
    ensures FirstLookup(ps)(id).Found? ==> FirstLookup(ps)(id).value in ps && FirstLookup(ps)(id).value.id == id
  {
  }
}
