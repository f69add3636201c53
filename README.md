# converter-routine: a verified model of the reconciliation core

The converter routine keeps a converter catalogue in step with a metadata
catalogue. It has three jobs:

- it computes which software source codes and application operations are
  not yet registered as plugins and plugin relations, and generates the
  missing rows;
- it installs or updates every plugin's git repository under `./plugins/`
  and provisions the plugin's dependencies for its language;
- it removes leftover plugin directories.

Both databases are reached through a multi-host PostgreSQL connection
string. The string is parsed into hosts, one connection is opened per
host, and each request uses the first connection that answers a ping.

This project models that core in Dafny and proves its contracts. The
modules follow the Go packages:

| module | file | models |
|---|---|---|
| `Base`, `Strings` | base.dfy | records, `Result`/`Option`/`Lookup`, the `strings.Index`/`Replace`/`Split`/`Join` functions |
| `Dsn` | dsn.dfy | `parseMultiHostDSN` and `initializeConverterHosts` (pure string pipeline) |
| `Pools` | pools.dfy | `initializePool`, `connectManager` (class `PoolManager` over the `dbPools` map); `initializeconverterDbs`, `ConnectConverterOLD` (class `ConverterPool` over the `converterDbs` slice) |
| `CatalogDiff` | catalog.dfy | `getNewSoftwareSourceCode`, `getNewApplicationOperations`, `GeneratePluginsRelations`, `GeneratePlugins` |
| `Registry` | registry.dfy | the plugin and relation tables of db/Queries.go (class `PluginRegistry`) |
| `PluginsDir` | filesystem.dfy | the plugins directory as a set of names (class `Dir`), `cleanDir` |
| `Cleaner` | cleaner.dfy | `CleanPlugins`, `CleanPlugin` |
| `Dependencies` | dependencies.dfy | `UpdateDependencies`, `handlePyhonDependencies` |
| `CloneOrPull` | cloneorpull.dfy | `CloneOrPull` |
| `Updater` | updater.dfy | `Updater`, `installAndUpdate` |

External effects are parameters of the model:

- The process environment is a `map<string, string>`.
- Opening a connection is an oracle `opens` over the per-host DSN. Handing
  out a handle that answers a ping is an oracle `reachable` over connections.
- Query results are inputs of type `Result<seq<_>, DbError>`. A row lookup
  is `Found`, `NotFound` or `OtherError`.
- Generated UUIDs come from a parameter `uuid: nat -> string`. The k-th
  generated record gets `uuid(k)`.
- Cloning, checking out and pulling are oracles over the working path and
  the options the source builds.
- The `requirements.txt` stat, `python3 -m venv` and `pip install` are
  oracles keyed by the plugin's directory. `log.Fatalf` is the outcome
  `ProcessExit`.
- The plugins directory is a set of names, plus the names whose removal
  fails and the names whose stat fails for a reason other than absence.

Where the source mutates state in a loop, the model is a method with loop
invariants, proved against a specification function. The lemmas are proved
about those functions:

- `OpenAll` is proved against `Opened`;
- `SelectHost` against `FirstReachable`;
- the two diff methods against `NewSourceCodes`/`NewOperations`;
- `ExtractFormats` against `LastEncoding`;
- `GeneratePluginsRelations` against `BuildRelations`;
- `GeneratePlugins` against `BuildPlugins`;
- `CleanPlugins` against `Removed`;
- `Updater` against `ExitIndex`, `Marked` and `ClonedIds`.

## Model

| member | source | states |
|---|---|---|
| Strings.Index | connection/Connection.go:156-163 | `strings.Index`: -1 exactly when the pattern never occurs; otherwise an occurrence with none before it |
| Strings.RemoveFirst | connection/Connection.go:143 | `strings.Replace(dsn, "jdbc:", "", 1)`: unchanged when absent; otherwise exactly the first occurrence is cut out and both sides are kept |
| Strings.RemoveAll | connection/Queries.go:373-374 | `strings.Replace(.., -1)` never lengthens its input |
| Strings.RemoveAllPlainPrefix | connection/Queries.go:373-374 | text in which no occurrence of the prefix starts is kept, and the scan resumes after it |
| Strings.RemoveAllDeletesOccurrence | connection/Queries.go:373-374 | an occurrence after such text is deleted, the text before it is kept, and the rest is processed the same way |
| Strings.RemoveAllAbsent | connection/Queries.go:373-374 | a UID without the prefix compares unchanged |
| Strings.RemoveAllLeading | connection/Queries.go:373-374 | a leading type prefix is dropped from the compared UID |
| Strings.Split | connection/Connection.go:171 | `strings.Split` never returns an empty list, and no piece contains the separator |
| Strings.JoinSplit | connection/Connection.go:171 | joining the pieces of a split gives back the original host segment |
| Strings.SplitJoin | connection/Connection.go:171 | splitting a join of separator-free pieces gives back the pieces |
| Dsn.ValueRun | connection/Connection.go:147 | the greedy `[^&]+` run stops exactly at the next '&' or the end |
| Dsn.MatchLenIsLongestMatch | connection/Connection.go:147-148 | the match taken at a position is a whole match of `&?(targetServerType\|loadBalanceHosts)=[^&]+`, ends at '&' or the end, and no longer prefix matches |
| Dsn.AssignmentLenIsLongest | connection/Connection.go:147 | the same for the assignment without its leading '&' |
| Dsn.ParamMatchHasNoInnerAmpersand | connection/Connection.go:147 | a value never contains '&', so a match holds '&' only at its start |
| Dsn.StripUnsupported | connection/Connection.go:148 | deleting matches never lengthens the DSN |
| Dsn.StripKeepsPlainText | connection/Connection.go:147-148 | text in which no match starts is kept verbatim |
| Dsn.StripKeepsPlainPrefix | connection/Connection.go:147-148 | text before the first match is kept, and the scan resumes after it |
| Dsn.MatchLenOfMatch | connection/Connection.go:147-148 | a parameter followed by '&' or the end is matched whole, with its leading '&' |
| Dsn.StripDeletesMatch | connection/Connection.go:147-148 | such a parameter is deleted together with its '&', and the text before it is kept |
| Dsn.TrimTrailingSeparator | connection/Connection.go:152 | at most one final character is removed, exactly when it is '?' or '&' |
| Dsn.SplitHostsAndParams | connection/Connection.go:156-171 | error "missing '//'" iff there is no "//"; error "missing '/' after hosts" iff nothing follows the hosts; otherwise at least one host |
| Dsn.ParseMultiHostDSN | connection/Connection.go:135-176 | an unset variable is the "is not set" error, and only then; otherwise the parse of the cleaned DSN |
| Dsn.InitializeConverterHosts | connection/ConverterDB.go:100-105 | unset `CONVERTER_CATALOGUE_CONNECTION_STRING` is the "is not set" error, and only then |
| Dsn.ConverterHostsAgree | connection/ConverterDB.go:100-145 | for every environment the older copy returns the same hosts, parameters and errors as `parseMultiHostDSN` |
| Dsn.JoinExcludes | connection/Connection.go:168-171 | a character absent from the host segment is absent from every host |
| Dsn.SplitRoundTrip | connection/Connection.go:162-171 | hosts joined by ',', then "/", then params equal the cleaned DSN after its first "//"; no host holds '/' or ',' |
| Dsn.ParseRoundTrip | connection/Connection.go:135-176 | the same round trip for the parser, with a non-empty host list |
| Pools.Candidates | connection/Connection.go:101-102 | one candidate per host, in host order, with DSN `postgresql://<host>/<params>` |
| Pools.OpenedSnoc | connection/Connection.go:115-120 | a host whose open fails is skipped; one that opens is appended |
| Pools.OpenAll | connection/Connection.go:99-121 | the append loop yields exactly the opened candidates, in order |
| Pools.InitPool | connection/Connection.go:85-131 | success means a non-empty pool; a parse error is reported as "failed to parse DSN", and only a parse error is; once the DSN parses, it succeeds exactly when some host's address opens and otherwise fails with "failed to initialize any DB connections" |
| Pools.OpenedNonEmpty | connection/Connection.go:99-128 | the opened list is non-empty exactly when the driver accepts some host's address |
| Pools.InitPoolContents | connection/Connection.go:101-128 | the pool holds exactly the candidates that open, as an order-preserving subsequence, at most one per host entry (a host listed twice can give two connections) |
| Pools.FirstReachableSpec | connection/Connection.go:58-80 | none exactly when no entry is reachable; otherwise the first reachable entry in pool order |
| Pools.SelectHost | connection/Connection.go:58-78 | the loop returns the first reachable entry, which belongs to the pool |
| Pools.ConnectSound | connection/Connection.go:42-81 | a returned connection is reachable and in the stored pool; pools of other variables are untouched |
| Pools.ConnectUnreachable | connection/Connection.go:58-80 | "all database hosts are unreachable" exactly when a non-empty pool is stored and none of it answers |
| Pools.ConnectReusesPool | connection/Connection.go:44 | a stored non-empty pool is not re-initialised: environment and open outcomes do not matter, and the map is unchanged |
| Pools.ConnectInitialisesOnce | connection/Connection.go:44-54 | after a successful initialisation the next call reuses the pool |
| Pools.PoolManager.InitializePool | connection/Connection.go:85-131 | on success `dbPools[envVar]` becomes exactly the opened pool; on failure the map is unchanged |
| Pools.PoolManager.ConnectManager | connection/Connection.go:42-81 | result and new pool map are exactly `Connect` of the old map |
| Pools.PoolManager.ConnectMetadata | connection/Connection.go:30-32 | `connectManager` for the metadata variable |
| Pools.PoolManager.ConnectConverter | connection/Connection.go:36-38 | `connectManager` for the converter variable |
| Pools.OpensPinged | connection/ConverterDB.go:73-86 | `gorm.Open` with its automatic ping succeeds exactly when the driver accepts the address and the host answers |
| Pools.OpenedPinged | connection/ConverterDB.go:70-91 | opening with the ping keeps, in host order, exactly the connections opened without it whose host answers |
| Pools.ReinitConverter | connection/ConverterDB.go:53-98 | on a parse error the old pool is kept; on success the pool is non-empty |
| Pools.ReinitConverterAgrees | connection/ConverterDB.go:53-98 | succeeds exactly when `initializePool` would with an open that demands an answer; on success the same pool; when nothing opens and answers the pool is left empty |
| Pools.ReinitConverterWithinInitPool | connection/ConverterDB.go:53-98 | against `initializePool` on the same hosts and driver: the older pool is its pool less the hosts that do not answer at open time, so it succeeds only where `initializePool` does, and agrees with it when every host answers |
| Pools.ConverterPool.InitializeConverterDbs | connection/ConverterDB.go:53-98 | the global slice and error are exactly `ReinitConverter` of the old slice |
| Pools.ConverterPool.ConnectConverterOld | connection/ConverterDB.go:20-50 | initialises only an empty pool, opening with the automatic ping; then returns the first reachable entry, or the init error, or "unreachable" |
| CatalogDiff.NewSourceCodesSpec | connection/Queries.go:159-172 | exactly the codes whose instance id is no plugin's source-code id, as a subsequence of the input |
| CatalogDiff.NewOperationsSpec | connection/Queries.go:186-199 | exactly the operations whose id is no relation's relation id, as a subsequence of the input |
| CatalogDiff.GetNewSoftwareSourceCode | connection/Queries.go:148-173 | each query error is passed on in order; otherwise the two loops return exactly `NewSourceCodes` |
| CatalogDiff.GetNewApplicationOperations | connection/Queries.go:175-200 | each query error is passed on in order; otherwise the two loops return exactly `NewOperations` |
| CatalogDiff.LastEncodingSpec | connection/Queries.go:247-257 | "" when no parameter has the action; otherwise the encoding of the last parameter with it |
| CatalogDiff.ExtractFormats | connection/Queries.go:247-257 | the loop leaves the input format at the last OBJECT encoding and the output format at the last RESULT encoding |
| CatalogDiff.RelationFor | connection/Queries.go:237-270 | a failed plugin lookup is reported with the application id, then a failed parameter lookup, then missing formats with both formats found; a relation is built exactly when both lookups succeed and both formats are non-empty; a built relation has the next uuid, the plugin's id, the operation id, type "Operation" and both formats non-empty |
| CatalogDiff.BuildRelationsSucceeds | connection/Queries.go:236-275 | the batch succeeds iff every operation's relation can be built |
| CatalogDiff.BuildRelationsShape | connection/Queries.go:236-275 | one relation per new operation, in order |
| CatalogDiff.BuildRelationsFirstError | connection/Queries.go:236-261 | a failed batch reports the error of the first failing operation; no partial result |
| CatalogDiff.GeneratePluginsRelations | connection/Queries.go:228-276 | the diff errors are wrapped; otherwise the loop's result equals `BuildRelations` over the new operations |
| CatalogDiff.LastBelonging | connection/Queries.go:371-377 | -1 iff no application's stripped UID equals the code's; otherwise the last such application |
| CatalogDiff.AttachAppsSpec | connection/Queries.go:371-389 | the last matching application wins; no match leaves the plugin as created; a language error aborts |
| CatalogDiff.IsInstalled | connection/Queries.go:350-356 | found iff some installed repository has the same UID |
| CatalogDiff.InstalledCodesStep | connection/Queries.go:357-359 | a code not in the installed repositories is skipped |
| CatalogDiff.BuildPluginsFails | connection/Queries.go:348-393 | the batch fails iff some installed new code has a matching application whose language lookup fails |
| CatalogDiff.BuildPluginsShape | connection/Queries.go:348-393 | one plugin per installed new code, in order, with uuid, source-code id, version, Installed and Enabled set, and runtime fields from the last matching application |
| CatalogDiff.GeneratePlugins | connection/Queries.go:332-396 | the query errors are wrapped in order; otherwise the nested loops' result equals `BuildPlugins` over the new codes |
| CatalogDiff.GeneratedPluginsAreNewAndInstalled | connection/Queries.go:332-396 | every generated plugin comes from a code that is installed and not yet registered |
| Registry.FindById | db/Queries.go:18-26 | `First`: a row with that id and from the table, or NotFound exactly when no row has it; never another error |
| Registry.FindOrZero | connection/Queries.go:79-91 | `Find`: the row when it exists, the zero record otherwise, and no error |
| Registry.WithInstalled | db/Queries.go:104-107 | same length; exactly the rows with that id get the new flag, all else stays |
| Registry.WithInstalledKeepsKeys | db/Queries.go:104-110 | the update keeps the key column, so ids and their uniqueness are kept |
| Registry.WithInstalledIdempotent | db/Queries.go:94-113 | repeating the update changes nothing |
| Registry.FindAfterWithInstalled | db/Queries.go:94-113 | after the update the lookup finds the same row with the new flag |
| Registry.FindOtherAfterWithInstalled | db/Queries.go:94-113 | the lookup of every other id is unchanged |
| Registry.PluginRegistry.GetPluginById | db/Queries.go:18-26 | the stored row with that id, or RecordNotFound exactly when absent |
| Registry.PluginRegistry.SetPlugins | db/Queries.go:39-54 | the table becomes exactly the list; a batch with a repeated id is refused and leaves the truncated table empty |
| Registry.PluginRegistry.SetPluginsRelations | db/Queries.go:56-71 | the same for the relation table |
| Registry.PluginRegistry.InsertPlugins | db/Queries.go:73-81 | every existing row is kept and the batch is appended; on a key clash nothing is added |
| Registry.PluginRegistry.InsertPluginsRelations | db/Queries.go:83-91 | the same for the relation table |
| Registry.PluginRegistry.SetPluginInstalledStatus | db/Queries.go:94-113 | absent id: RecordNotFound and nothing changes; present id: only that row's flag changes |
| PluginsDir.RepoPath | pluginmanager/CloneOrPull.go:35 | the working directory is the prefix `./plugins/` followed by the plugin id |
| PluginsDir.StatIn | pluginmanager/CloneOrPull.go:38 | not-exist iff the directory is absent and the stat does not fail otherwise |
| PluginsDir.Dir.CleanDir | pluginmanager/Cleaner.go:68-74 | fails iff the directory is present and cannot be removed; otherwise the name is gone; a missing path is never an error and changes nothing |
| Cleaner.RemovedSpec | pluginmanager/Cleaner.go:35-59 | removed exactly: directory entries not listed, reported not-found, whose removal does not fail |
| Cleaner.CleanPlugins | pluginmanager/Cleaner.go:17-65 | a listing or read error returns before anything is removed; otherwise exactly `Removed` goes and nil is returned |
| Cleaner.CleanPlugin | pluginmanager/Cleaner.go:77-97 | lookup failure: error, nothing changes; removal failure of a present directory: error, status untouched; otherwise directory gone and flag set to false |
| Cleaner.FindLookupNeverStale | pluginmanager/Cleaner.go:44-47 | with the lookup as written (`Find`), no directory is ever removed |
| Cleaner.FirstLookupStale | pluginmanager/Cleaner.go:44-47 | with the `First` lookup, a directory is stale iff it is neither listed nor a plugin id |
| Cleaner.LeftoverDirectoryExample | pluginmanager/Cleaner.go:44-51 | empty table, directory "old": kept as written, removed with `First` |
| Cleaner.FindLookupAcceptsUnknownId | pluginmanager/Cleaner.go:79-82 | as written an unknown id passes the lookup as the zero record |
| Cleaner.FirstLookupRefusesUnknownId | pluginmanager/Cleaner.go:79-82 | with `First` an unknown id is refused, and only an unknown id |
| Dependencies.Dispatch | pluginmanager/DependenciesUpdater.go:23-32 | nothing to do iff "Go" or "Java"; venv iff "Python"; everything else, "" included, is unknown |
| Dependencies.HandlePythonDependencies | pluginmanager/DependenciesUpdater.go:36-69 | no command without requirements.txt; venv before pip; pip only after venv succeeds; exit iff pip fails; nil iff pip succeeds |
| Dependencies.UpdateDependencies | pluginmanager/DependenciesUpdater.go:15-33 | a language lookup error is returned with nothing run; otherwise dispatch by language |
| Dependencies.UpdateDependenciesOutcome | pluginmanager/DependenciesUpdater.go:15-69 | success iff Go/Java, or Python with requirements, venv and pip all succeeding; process exit iff Python's pip fails; commands run only for Python |
| CloneOrPull.ResolveRef | pluginmanager/CloneOrPull.go:16-21 | the reference is named by the version, and it is a branch iff the version type is "branch" |
| CloneOrPull.FullNamesDistinct | pluginmanager/CloneOrPull.go:16-21 | `refs/heads/` and `refs/tags/` names coincide only for the same reference |
| CloneOrPull.CloneOrPullRun | pluginmanager/CloneOrPull.go:14-64 | absent directory: just a clone; otherwise checkout, then pull only if checkout succeeded; one reference and path throughout; nil iff every attempted step succeeded, "already up to date" counting as success |
| CloneOrPull.CloneOrPull | pluginmanager/CloneOrPull.go:14-64 | the run equals `CloneOrPullRun` of the directory's stat; a successful clone adds the plugin's directory |
| CloneOrPull.CloneThenPull | pluginmanager/CloneOrPull.go:38-60 | an absent directory is cloned; the directory set that the successful clone leaves makes the next stat report the directory, and the next run checks out and pulls instead of cloning |
| Updater.InstallAndUpdateRun | pluginmanager/Updater.go:39-52 | a git error is returned; dependencies run only after git succeeds; installed iff both succeed; a dependency error names the plugin |
| Updater.InstalledByLanguage | pluginmanager/Updater.go:39-52 | a Go or Java plugin is installed iff its git step succeeds; an unknown language never is |
| Updater.InstallAndUpdate | pluginmanager/Updater.go:39-52 | the outcome equals `InstallAndUpdateRun`; only a successful clone adds a directory |
| Updater.ExitIndex | pluginmanager/Updater.go:24-35 | the first plugin whose provisioning ends the process; none before it does |
| Updater.MarkedSpec | pluginmanager/Updater.go:24-35 | each processed plugin's flag is whether it installed; other rows and all other columns are unchanged; keys stay unique |
| Updater.MarkedStep | pluginmanager/Updater.go:28-34 | writing the next plugin's status changes no other row |
| Updater.StatUnchanged | pluginmanager/Updater.go:24-35 | earlier plugins' clones do not change a later plugin's directory state |
| Updater.ClonedIdsStep | pluginmanager/Updater.go:24-35 | the next plugin adds its directory exactly when it is cloned |
| Updater.UpdateNext | pluginmanager/Updater.go:25-34 | one round: the process ends, or the plugin's flag is recorded and nothing else changes |
| Updater.UpdateAll | pluginmanager/Updater.go:24-36 | every plugin is processed once, in order, until the process ends; the flags are `Marked`; nil when none ends it |
| Updater.Updater | pluginmanager/Updater.go:13-37 | a list error is returned, and an empty list is "no plugins found", both with no change; otherwise as `UpdateAll` |

## Left out

- Logging, the gorm logger configuration and the 2-second ping timeout of
  connection/Connection.go:66. The ping is the `reachable` oracle.
- Getting a plugin's `*sql.DB` handle (`db.DB()`) is folded into the same
  `reachable` oracle.
- The `mu` mutex of connection/Connection.go is declared and never used.
  The model has no concurrency.
- Pools.InitPool: the source checks the pool length again after a
  successful initialisation, at connection/Connection.go:51-53 and
  connection/ConverterDB.go:26-28. A successful initialisation always
  stores a non-empty pool, so that branch cannot be taken and the model
  has no such branch.
- SQL semantics are not modelled:
  - the joins and filters of the catalogue queries, which arrive as input
    sequences;
  - `TRUNCATE … CASCADE` effects on other tables;
  - statement errors other than a primary-key clash;
  - how gorm handles an empty batch.
- The language lookup (`GetSoftwareSourceCodeProgrammingLanguage`) and the
  parameter query are function parameters.
- Registry.PluginRegistry.SetPluginInstalledStatus: connection's
  `SetPluginInstalledStatus`, which the updater and cleaner call, is part of
  no file here. Both callers are modelled with the db/Queries.go version.
- Updater.Updater: the status write can only fail for an absent id, and
  that cannot happen for a listed plugin. A connection failure during the
  write is not modelled, though its error would be ignored as in the source.
- Dependencies.UpdateDependencies: it is declared over
  `orms.SoftwareSourceCode` but called with a `model.Plugin`
  (pluginmanager/Updater.go:45). The model passes the plugin's id as the key
  for both the language lookup and the directory, which is the directory
  `CloneOrPull` works in.
- Updater.Updater returns `error`, but cronservice/Service.go:57 uses its
  result as a list of installed repositories. The scheduler is not
  modelled: it is cron scheduling plus a process-wide mutex. Its early
  returns at cronservice/Service.go:62 and :80 leave that mutex locked.
- CloneOrPull.CloneOrPull: a clone that fails adds no directory in the
  model. A partially written directory left by go-git is not modelled.
- Checkout, the pull wrapper and the clone wrapper
  (pluginmanager/Checkout.go, Puller.go, Cloner.go) become the three git
  oracles. The pull wrapper's handling of `NoErrAlreadyUpToDate` is kept.
- The HTTP server, main.go and the ORM struct declarations are not part of
  this model.
- Error messages are modelled as error constructors, not as formatted text.
  Most carry the data their message prints. The older pool of
  connection/ConverterDB.go shares the keyed manager's constructors, which
  encode additional data or merge messages:
  - "all database hosts are unreachable" (:49) names no variable, but the
    model reports `AllUnreachable(ConverterEnvVar)`;
  - "failed to initialize hosts: %w" (:56) is `ParseFailed(ConverterEnvVar, e)`;
  - "failed to initialize any database connections" (:94) is
    `NoConnections(ConverterEnvVar)`.
- CloneOrPull.CloneOrPull: the pull wrapper is declared as
  `PullRepository(obj orms.SoftwareSourceCode, …)`, and it opens
  `PluginsPath + obj.GetInstance_id()` (pluginmanager/Puller.go:9-11).
  pluginmanager/CloneOrPull.go:58 calls it with a `model.Plugin`. The model
  pulls in `RepoPath(p.id)`, the directory the clone and the checkout use.
- The checkout wrapper imports go-git v5 (pluginmanager/Checkout.go:5).
  CloneOrPull.go, Cloner.go and Puller.go import go-git v4, so the
  `CheckoutOptions` built at pluginmanager/CloneOrPull.go:47-52 is not of the
  type `Checkout` takes. The model has one options type for both.
- PluginsDir.Dir.CleanDir and Cleaner.CleanPlugins: `cleanDir` removes
  `path.Join(PluginsPath, name)` (pluginmanager/Cleaner.go:69), and the
  model keys the directory by the entry name. `path.Join` also cleans the
  path, so the two differ only for names such as "." and "..", or names
  containing '/'. No `os.ReadDir` entry has such a name.
- Cleaner.CleanPlugin: the id comes from the caller (the `:plugin_id`
  route of server.go), so those names can reach `cleanDir`, and the model
  does not capture what they do. With the lookup as written an unknown id
  passes (`FindLookupAcceptsUnknownId`):
  - for ".", the source removes `plugins`, that is every plugin's
    directory, while the model removes only the entry ".";
  - for "..", the source calls `os.RemoveAll(".")`, which Go refuses with
    an error, while the model succeeds;
  - ids containing '/' name paths outside the modelled set of entries.
- The automatic ping: connection/ConverterDB.go:73-82 opens with gorm's
  automatic ping, which connection/Connection.go:113 turns off. The model
  takes it as the oracle `answers`, asked once per host at open time and
  independent of the later `reachable` ping.

Where the repository's documentation and its code differ, the model follows the code:

- `GeneratePlugins` creates plugins with `Installed = true`, and copies
  neither the repository nor the version type.
- The example DSN parameters come out as `dbname?&sslmode=require`. Only
  one trailing separator is trimmed, and a '?' left in the middle stays.
- There is no retry or backoff: each call tries every entry once.

## Findings

| source | as written | input that shows it | evidently intended | confidence | as-written member | corrected member |
|---|---|---|---|---|---|---|
| pluginmanager/Cleaner.go:44-47 with connection/Queries.go:86 | connection.GetPluginById looks the row up with gorm's `Find`. `Find` reports no error for a missing row, so the `ErrRecordNotFound` branch of `CleanPlugins` is never taken and no leftover directory is ever removed. `CleanPlugin` with an unknown id removes the directory before the status update fails. | an empty plugin table and one directory "old" in ./plugins/ | the lookup by `First` (db/Queries.go:21), which reports a missing row as ErrRecordNotFound | high, not executed | Cleaner.FindLookupNeverStale | Cleaner.FirstLookupStale |
