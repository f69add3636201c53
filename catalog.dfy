/** The catalogue diff engine of connection/Queries.go. Every database read is
    an input: a query result (Ok rows or Err) or a lookup function keyed by
    instance id. The k-th generated UUID is uuid(k). */
module CatalogDiff {
  import opened Base
  import opened Strings

  datatype DiffError =
    | NewOperationsFailed(cause: DbError)                // "failed to get new application operations: ..."
    | PluginLookupFailed(instanceId: string, cause: DbError)
    | ParametersLookupFailed(instanceId: string, cause: DbError)
    | MissingFormats(inputFormat: string, outputFormat: string)
    | NewSourceCodesFailed(cause: DbError)               // "failed to retrieve new software source codes: ..."
    | ApplicationsFailed(cause: DbError)                 // "failed to retrieve software applications: ..."
    | LanguageLookupFailed(cause: DbError)               // returned unwrapped by the source

  // ---------------------------------------------------------------------
  // getNewSoftwareSourceCode and getNewApplicationOperations

  /** The source-code ids the plugin table already covers. */
  function RegisteredSourceCodes(plugins: seq<Plugin>): set<string>
  {
    set p | p in plugins :: p.softwareSourceCodeId
  }

  /** The operation ids the relation table already covers. */
  function LinkedOperations(relations: seq<PluginRelation>): set<string>
  {
    set r | r in relations :: r.relationId
  }

  /** Source codes no plugin has been generated for yet, in catalogue order. */
  function NewSourceCodes(codes: seq<SourceCode>, plugins: seq<Plugin>): seq<SourceCode>
  {
    Filter(codes, (c: SourceCode) => c.instanceId !in RegisteredSourceCodes(plugins))
  }

  /** Operations no relation has been generated for yet, in catalogue order. */
  function NewOperations(ops: seq<Operation>, relations: seq<PluginRelation>): seq<Operation>
  {
    Filter(ops, (o: Operation) => o.operationInstanceId !in LinkedOperations(relations))
  }

  /** The new source codes are exactly those whose instance id is no plugin's
      source-code id, in their original order. */
  lemma NewSourceCodesSpec(codes: seq<SourceCode>, plugins: seq<Plugin>)
    ensures forall c :: c in NewSourceCodes(codes, plugins) <==>
              c in codes && forall k :: 0 <= k < |plugins| ==> plugins[k].softwareSourceCodeId != c.instanceId
    ensures Subsequence(NewSourceCodes(codes, plugins), codes)
  {
    FilterSpec(codes, (c: SourceCode) => c.instanceId !in RegisteredSourceCodes(plugins));
    forall c: SourceCode ensures c.instanceId in RegisteredSourceCodes(plugins) <==>
                     exists k :: 0 <= k < |plugins| && plugins[k].softwareSourceCodeId == c.instanceId {
      if c.instanceId in RegisteredSourceCodes(plugins) {
        var p :| p in plugins && p.softwareSourceCodeId == c.instanceId;
        var k :| 0 <= k < |plugins| && plugins[k] == p;
      }
    }
  }

  /** The new operations are exactly those whose id is no relation's target,
      in their original order. */
  lemma NewOperationsSpec(ops: seq<Operation>, relations: seq<PluginRelation>)
    ensures forall o :: o in NewOperations(ops, relations) <==>
              o in ops && forall k :: 0 <= k < |relations| ==> relations[k].relationId != o.operationInstanceId
    ensures Subsequence(NewOperations(ops, relations), ops)
  {
    FilterSpec(ops, (o: Operation) => o.operationInstanceId !in LinkedOperations(relations));
    forall o: Operation ensures o.operationInstanceId in LinkedOperations(relations) <==>
                     exists k :: 0 <= k < |relations| && relations[k].relationId == o.operationInstanceId {
      if o.operationInstanceId in LinkedOperations(relations) {
        var r :| r in relations && r.relationId == o.operationInstanceId;
        var k :| 0 <= k < |relations| && relations[k] == r;
      }
    }
  }

  /** getNewSoftwareSourceCode: read both tables, build the lookup set, keep what it lacks. */
  method GetNewSoftwareSourceCode(codes: Result<seq<SourceCode>, DbError>, plugins: Result<seq<Plugin>, DbError>)
    returns (r: Result<seq<SourceCode>, DbError>)
    ensures codes.Err? ==> r == Err(codes.error)
    ensures codes.Ok? && plugins.Err? ==> r == Err(plugins.error)
    ensures codes.Ok? && plugins.Ok? ==> r == Ok(NewSourceCodes(codes.value, plugins.value))
  {
    if codes.Err? {
      return Err(codes.error);
    }
    if plugins.Err? {
      return Err(plugins.error);
    }
    var ps, cs := plugins.value, codes.value;
    var registered: set<string> := {};
    var i := 0;
    while i < |ps|
      invariant 0 <= i <= |ps|
      invariant registered == RegisteredSourceCodes(ps[..i])
    {
      assert forall p :: p in ps[..i + 1] <==> p in ps[..i] || p == ps[i];
      registered := registered + {ps[i].softwareSourceCodeId};
      i := i + 1;
    }
    assert ps[..i] == ps;
    var result: seq<SourceCode> := [];
    var j := 0;
    while j < |cs|
      invariant 0 <= j <= |cs|
      invariant result == NewSourceCodes(cs[..j], ps)
    {
      FilterSnoc(cs[..j], cs[j], (c: SourceCode) => c.instanceId !in RegisteredSourceCodes(ps));
      assert cs[..j + 1] == cs[..j] + [cs[j]];
      if cs[j].instanceId !in registered {
        result := result + [cs[j]];
      }
      j := j + 1;
    }
    assert cs[..j] == cs;
    return Ok(result);
  }

  /** getNewApplicationOperations: the same diff between operations and relations. */
  method GetNewApplicationOperations(ops: Result<seq<Operation>, DbError>, relations: Result<seq<PluginRelation>, DbError>)
    returns (r: Result<seq<Operation>, DbError>)
    ensures ops.Err? ==> r == Err(ops.error)
    ensures ops.Ok? && relations.Err? ==> r == Err(relations.error)
    ensures ops.Ok? && relations.Ok? ==> r == Ok(NewOperations(ops.value, relations.value))
  {
    if ops.Err? {
      return Err(ops.error);
    }
    if relations.Err? {
      return Err(relations.error);
    }
    var rs, os := relations.value, ops.value;
    var linked: set<string> := {};
    var i := 0;
    while i < |rs|
      invariant 0 <= i <= |rs|
      invariant linked == LinkedOperations(rs[..i])
    {
      assert forall x :: x in rs[..i + 1] <==> x in rs[..i] || x == rs[i];
      linked := linked + {rs[i].relationId};
      i := i + 1;
    }
    assert rs[..i] == rs;
    var result: seq<Operation> := [];
    var j := 0;
    while j < |os|
      invariant 0 <= j <= |os|
      invariant result == NewOperations(os[..j], rs)
    {
      FilterSnoc(os[..j], os[j], (o: Operation) => o.operationInstanceId !in LinkedOperations(rs));
      assert os[..j + 1] == os[..j] + [os[j]];
      if os[j].operationInstanceId !in linked {
        result := result + [os[j]];
      }
      j := j + 1;
    }
    assert os[..j] == os;
    return Ok(result);
  }

  // ---------------------------------------------------------------------
  // GeneratePluginsRelations

  /** The encoding of the last parameter with the given action, or "" when none has it. */
  function LastEncoding(ps: seq<Parameter>, action: string): string
  {
    if ps == [] then ""
    else if ps[|ps| - 1].action == action then ps[|ps| - 1].encodingFormat
    else LastEncoding(ps[..|ps| - 1], action)
  }

  /** LastEncoding is the encoding of the last parameter carrying the action;
      parameters with other actions play no part. */
  lemma {:induction false} LastEncodingSpec(ps: seq<Parameter>, action: string)
    ensures (forall k :: 0 <= k < |ps| ==> ps[k].action != action) ==> LastEncoding(ps, action) == ""
    ensures (exists k :: 0 <= k < |ps| && ps[k].action == action) ==>
              exists k :: 0 <= k < |ps| && ps[k].action == action && LastEncoding(ps, action) == ps[k].encodingFormat
                          && forall j :: k < j < |ps| ==> ps[j].action != action
  {
    if ps != [] && ps[|ps| - 1].action != action {
      var init := ps[..|ps| - 1];
      LastEncodingSpec(init, action);
      forall k | 0 <= k < |init| ensures init[k] == ps[k] {
      }
      if exists k :: 0 <= k < |ps| && ps[k].action == action {
        var k0 :| 0 <= k0 < |ps| && ps[k0].action == action;
        assert init[k0] == ps[k0];
        var k :| 0 <= k < |init| && init[k].action == action && LastEncoding(init, action) == init[k].encodingFormat
                  && forall j :: k < j < |init| ==> init[j].action != action;
        assert ps[k] == init[k];
      }
    }
  }

  /** The parameter loop of GeneratePluginsRelations: OBJECT sets the input
      format, RESULT the output format, later parameters overwrite earlier ones. */
  method ExtractFormats(ps: seq<Parameter>) returns (inputFormat: string, outputFormat: string)
    ensures inputFormat == LastEncoding(ps, "OBJECT")
    ensures outputFormat == LastEncoding(ps, "RESULT")
  {
    inputFormat, outputFormat := "", "";
    var i := 0;
    while i < |ps|
      invariant 0 <= i <= |ps|
      invariant inputFormat == LastEncoding(ps[..i], "OBJECT")
      invariant outputFormat == LastEncoding(ps[..i], "RESULT")
    {
      assert ps[..i + 1][..i] == ps[..i];
      if ps[i].action == "OBJECT" {
        inputFormat := ps[i].encodingFormat;
      } else if ps[i].action == "RESULT" {
        outputFormat := ps[i].encodingFormat;
      }
      i := i + 1;
    }
    assert ps[..i] == ps;
  }

  /** The relation built for the k-th new operation, or the error that aborts the batch. */
  function RelationFor(op: Operation, k: nat, pluginOf: string -> Result<Plugin, DbError>,
                       paramsOf: string -> Result<seq<Parameter>, DbError>, uuid: nat -> string): (r: Result<PluginRelation, DiffError>)
    ensures pluginOf(op.softwareApplicationInstanceId).Err? ==>
              r == Err(PluginLookupFailed(op.softwareApplicationInstanceId, pluginOf(op.softwareApplicationInstanceId).error))
    ensures var app := op.softwareApplicationInstanceId;
            pluginOf(app).Ok? && paramsOf(app).Err? ==> r == Err(ParametersLookupFailed(app, paramsOf(app).error))
    ensures var app := op.softwareApplicationInstanceId;
            pluginOf(app).Ok? && paramsOf(app).Ok? ==>
              var inputFormat, outputFormat := LastEncoding(paramsOf(app).value, "OBJECT"), LastEncoding(paramsOf(app).value, "RESULT");
              (inputFormat == "" || outputFormat == "") ==> r == Err(MissingFormats(inputFormat, outputFormat))
    ensures var app := op.softwareApplicationInstanceId;
            r.Ok? <==> pluginOf(app).Ok? && paramsOf(app).Ok?
                       && LastEncoding(paramsOf(app).value, "OBJECT") != "" && LastEncoding(paramsOf(app).value, "RESULT") != ""
    ensures r.Ok? ==>
              var app := op.softwareApplicationInstanceId;
              && pluginOf(app).Ok? && paramsOf(app).Ok?
              && r.value.id == uuid(k) && r.value.pluginId == pluginOf(app).value.id
              && r.value.relationId == op.operationInstanceId && r.value.relationType == "Operation"
              && r.value.inputFormat == LastEncoding(paramsOf(app).value, "OBJECT") && r.value.inputFormat != ""
              && r.value.outputFormat == LastEncoding(paramsOf(app).value, "RESULT") && r.value.outputFormat != ""
  {
    var app := op.softwareApplicationInstanceId;
    match pluginOf(app)
    case Err(e) => Err(PluginLookupFailed(app, e))
    case Ok(plugin) =>
      match paramsOf(app)
      case Err(e) => Err(ParametersLookupFailed(app, e))
      case Ok(ps) =>
        var inputFormat, outputFormat := LastEncoding(ps, "OBJECT"), LastEncoding(ps, "RESULT");
        if inputFormat == "" || outputFormat == "" then Err(MissingFormats(inputFormat, outputFormat))
        else Ok(PluginRelation(uuid(k), plugin.id, op.operationInstanceId, "Operation", inputFormat, outputFormat))
  }

  /** The relations for ops[i..], appended to acc; the first failure wins. */
  function BuildRelations(ops: seq<Operation>, i: nat, acc: seq<PluginRelation>,
                          pluginOf: string -> Result<Plugin, DbError>, paramsOf: string -> Result<seq<Parameter>, DbError>,
                          uuid: nat -> string): Result<seq<PluginRelation>, DiffError>
    requires i <= |ops|
    decreases |ops| - i
  {
    if i == |ops| then Ok(acc)
    else
      match RelationFor(ops[i], i, pluginOf, paramsOf, uuid)
      case Err(e) => Err(e)
      case Ok(rel) => BuildRelations(ops, i + 1, acc + [rel], pluginOf, paramsOf, uuid)
  }

  /** A batch succeeds exactly when every operation yields a relation. */
  lemma {:induction false} BuildRelationsSucceeds(ops: seq<Operation>, i: nat, acc: seq<PluginRelation>,
                                                  pluginOf: string -> Result<Plugin, DbError>,
                                                  paramsOf: string -> Result<seq<Parameter>, DbError>, uuid: nat -> string)
    requires i <= |ops|
    ensures BuildRelations(ops, i, acc, pluginOf, paramsOf, uuid).Ok? <==>
              forall k :: i <= k < |ops| ==> RelationFor(ops[k], k, pluginOf, paramsOf, uuid).Ok?
    decreases |ops| - i
  {
    if i < |ops| {
      var first := RelationFor(ops[i], i, pluginOf, paramsOf, uuid);
      if first.Ok? {
        BuildRelationsSucceeds(ops, i + 1, acc + [first.value], pluginOf, paramsOf, uuid);
      }
    }
  }

  /** A successful batch keeps acc and then holds one relation per operation,
      in operation order. */
  lemma {:induction false} BuildRelationsShape(ops: seq<Operation>, i: nat, acc: seq<PluginRelation>,
                                               pluginOf: string -> Result<Plugin, DbError>,
                                               paramsOf: string -> Result<seq<Parameter>, DbError>, uuid: nat -> string)
    requires i <= |ops|
    requires BuildRelations(ops, i, acc, pluginOf, paramsOf, uuid).Ok?
    ensures var rs := BuildRelations(ops, i, acc, pluginOf, paramsOf, uuid).value;
            && |rs| == |acc| + |ops| - i && rs[..|acc|] == acc
            && forall k :: i <= k < |ops| ==>
                 RelationFor(ops[k], k, pluginOf, paramsOf, uuid).Ok? && rs[|acc| + k - i] == RelationFor(ops[k], k, pluginOf, paramsOf, uuid).value
    decreases |ops| - i
  {
    if i < |ops| {
      var first := RelationFor(ops[i], i, pluginOf, paramsOf, uuid);
      var acc' := acc + [first.value];
      BuildRelationsShape(ops, i + 1, acc', pluginOf, paramsOf, uuid);
      var rs := BuildRelations(ops, i + 1, acc', pluginOf, paramsOf, uuid).value;
      assert rs[..|acc|] == rs[..|acc'|][..|acc|];
      assert rs[|acc|] == rs[..|acc'|][|acc|];
    }
  }

  /** A failed batch reports the error of the first operation that fails;
      operations before it all succeeded. */
  lemma {:induction false} BuildRelationsFirstError(ops: seq<Operation>, i: nat, acc: seq<PluginRelation>,
                                                    pluginOf: string -> Result<Plugin, DbError>,
                                                    paramsOf: string -> Result<seq<Parameter>, DbError>, uuid: nat -> string)
    requires i <= |ops|
    requires BuildRelations(ops, i, acc, pluginOf, paramsOf, uuid).Err?
    ensures exists k :: i <= k < |ops| && RelationFor(ops[k], k, pluginOf, paramsOf, uuid).Err?
                        && BuildRelations(ops, i, acc, pluginOf, paramsOf, uuid).error == RelationFor(ops[k], k, pluginOf, paramsOf, uuid).error
                        && forall j :: i <= j < k ==> RelationFor(ops[j], j, pluginOf, paramsOf, uuid).Ok?
    decreases |ops| - i
  {
    var first := RelationFor(ops[i], i, pluginOf, paramsOf, uuid);
    if first.Ok? {
      BuildRelationsFirstError(ops, i + 1, acc + [first.value], pluginOf, paramsOf, uuid);
    }
  }

  /** GeneratePluginsRelations: diff the operations against the relation table,
      then build one relation per new operation or fail the whole batch. */
  method GeneratePluginsRelations(ops: Result<seq<Operation>, DbError>, relations: Result<seq<PluginRelation>, DbError>,
                                  pluginOf: string -> Result<Plugin, DbError>,
                                  paramsOf: string -> Result<seq<Parameter>, DbError>, uuid: nat -> string)
    returns (r: Result<seq<PluginRelation>, DiffError>)
    ensures ops.Err? ==> r == Err(NewOperationsFailed(ops.error))
    ensures ops.Ok? && relations.Err? ==> r == Err(NewOperationsFailed(relations.error))
    ensures ops.Ok? && relations.Ok? ==>
              r == BuildRelations(NewOperations(ops.value, relations.value), 0, [], pluginOf, paramsOf, uuid)
  {
    var newOps := GetNewApplicationOperations(ops, relations);
    if newOps.Err? {
      return Err(NewOperationsFailed(newOps.error));
    }
    var todo := newOps.value;
    var list: seq<PluginRelation> := [];
    var i := 0;
    while i < |todo|
      invariant 0 <= i <= |todo|
      invariant BuildRelations(todo, 0, [], pluginOf, paramsOf, uuid) == BuildRelations(todo, i, list, pluginOf, paramsOf, uuid)
    {
      var op := todo[i];
      var app := op.softwareApplicationInstanceId;
      var plugin := pluginOf(app);
      if plugin.Err? {
        return Err(PluginLookupFailed(app, plugin.error));
      }
      var params := paramsOf(app);
      if params.Err? {
        return Err(ParametersLookupFailed(app, params.error));
      }
      var inputFormat, outputFormat := ExtractFormats(params.value);
      if inputFormat == "" || outputFormat == "" {
        return Err(MissingFormats(inputFormat, outputFormat));
      }
      var rel := PluginRelation(uuid(i), plugin.value.id, op.operationInstanceId, "Operation", inputFormat, outputFormat);
      list := list + [rel];
      i := i + 1;
    }
    return Ok(list);
  }

  // ---------------------------------------------------------------------
  // GeneratePlugins

  /** The UID with every "SoftwareSourceCode/" or "SoftwareApplication/" removed. */
  function CodeKey(c: SourceCode): string
  {
    RemoveAll(c.uid, "SoftwareSourceCode/")
  }

  function AppKey(a: Application): string
  {
    RemoveAll(a.uid, "SoftwareApplication/")
  }

  /** An application belongs to a source code when their stripped UIDs coincide. */
  predicate Belongs(c: SourceCode, a: Application)
  {
    CodeKey(c) == AppKey(a)
  }

  /** The record created for a source code before any application is attached. */
  function NewPlugin(c: SourceCode, id: string): Plugin
  {
    Plugin(id, c.instanceId, "", c.softwareVersion, "", "", "", "", "", true, true)
  }

  /** The fields an attached application sets. */
  function Attach(p: Plugin, a: Application, lang: string): Plugin
  {
    p.(proxyType := lang, softwareApplicationId := a.instanceId, runtime := lang, execution := a.requirements)
  }

  /** The application loop of GeneratePlugins over apps[j..]: each matching
      application asks for the language and overwrites the runtime fields. */
  function AttachApps(p: Plugin, c: SourceCode, apps: seq<Application>, j: nat,
                      langOf: string -> Result<string, DbError>): Result<Plugin, DbError>
    requires j <= |apps|
    decreases |apps| - j
  {
    if j == |apps| then Ok(p)
    else if !Belongs(c, apps[j]) then AttachApps(p, c, apps, j + 1, langOf)
    else
      match langOf(c.instanceId)
      case Err(e) => Err(e)
      case Ok(lang) => AttachApps(Attach(p, apps[j], lang), c, apps, j + 1, langOf)
  }

  /** The index of the last application in apps[j..] that belongs to c, or -1. */
  function LastBelonging(c: SourceCode, apps: seq<Application>, j: nat): (m: int)
    requires j <= |apps|
    ensures m == -1 <==> forall k :: j <= k < |apps| ==> !Belongs(c, apps[k])
    ensures m != -1 ==> j <= m < |apps| && Belongs(c, apps[m]) && forall k :: m < k < |apps| ==> !Belongs(c, apps[k])
    decreases |apps| - j
  {
    if j == |apps| then -1
    else
      var rest := LastBelonging(c, apps, j + 1);
      if rest != -1 then rest else if Belongs(c, apps[j]) then j else -1
  }

  /** With no belonging application the plugin is unchanged; otherwise the
      language lookup decides: its error aborts, its value goes into both
      ProxyType and Runtime, and the last belonging application supplies the
      application id and the execution requirements. */
  lemma {:induction false} AttachAppsSpec(p: Plugin, c: SourceCode, apps: seq<Application>, j: nat,
                                          langOf: string -> Result<string, DbError>)
    requires j <= |apps|
    ensures var m := LastBelonging(c, apps, j);
            AttachApps(p, c, apps, j, langOf) ==
              if m == -1 then Ok(p)
              else match langOf(c.instanceId)
                   case Err(e) => Err(e)
                   case Ok(lang) => Ok(Attach(p, apps[m], lang))
    decreases |apps| - j
  {
    if j < |apps| {
      if Belongs(c, apps[j]) && langOf(c.instanceId).Ok? {
        AttachAppsSpec(Attach(p, apps[j], langOf(c.instanceId).value), c, apps, j + 1, langOf);
      } else if !Belongs(c, apps[j]) {
        AttachAppsSpec(p, c, apps, j + 1, langOf);
      }
    }
  }

  /** A source code is installed when some installed repository has its UID. */
  method IsInstalled(c: SourceCode, installedRepos: seq<SourceCode>) returns (found: bool)
    ensures found <==> exists k :: 0 <= k < |installedRepos| && installedRepos[k].uid == c.uid
  {
    found := false;
    var i := 0;
    while i < |installedRepos|
      invariant 0 <= i <= |installedRepos|
      invariant forall k :: 0 <= k < i ==> installedRepos[k].uid != c.uid
    {
      if c.uid == installedRepos[i].uid {
        found := true;
        break;
      }
      i := i + 1;
    }
  }

  predicate Installed(c: SourceCode, installedRepos: seq<SourceCode>)
  {
    exists k :: 0 <= k < |installedRepos| && installedRepos[k].uid == c.uid
  }

  /** The plugins for codes[i..], appended to acc; the n-th emitted plugin
      takes the n-th UUID. */
  function BuildPlugins(codes: seq<SourceCode>, i: nat, acc: seq<Plugin>, installedRepos: seq<SourceCode>,
                        apps: seq<Application>, langOf: string -> Result<string, DbError>, uuid: nat -> string)
    : Result<seq<Plugin>, DiffError>
    requires i <= |codes|
    decreases |codes| - i
  {
    if i == |codes| then Ok(acc)
    else if !Installed(codes[i], installedRepos) then BuildPlugins(codes, i + 1, acc, installedRepos, apps, langOf, uuid)
    else
      match AttachApps(NewPlugin(codes[i], uuid(|acc|)), codes[i], apps, 0, langOf)
      case Err(e) => Err(LanguageLookupFailed(e))
      case Ok(p) => BuildPlugins(codes, i + 1, acc + [p], installedRepos, apps, langOf, uuid)
  }

  /** A plugin emitted for source code c with UUID id: created installed and
      enabled from c's instance id and version, with neither repository nor
      version type set, and carrying the runtime fields of the last
      application that belongs to c (or empty ones when none does). */
  predicate EmittedFor(p: Plugin, c: SourceCode, id: string, apps: seq<Application>, langOf: string -> Result<string, DbError>)
  {
    && p.id == id && p.softwareSourceCodeId == c.instanceId && p.version == c.softwareVersion
    && p.installed && p.enabled && p.repository == "" && p.versionType == ""
    && var m := LastBelonging(c, apps, 0);
       if m == -1 then p.softwareApplicationId == "" && p.runtime == "" && p.proxyType == "" && p.execution == ""
       else langOf(c.instanceId).Ok? && p.runtime == langOf(c.instanceId).value && p.proxyType == p.runtime
            && p.softwareApplicationId == apps[m].instanceId && p.execution == apps[m].requirements
  }

  /** Attaching applications to c fails: one belongs to it and its language lookup fails. */
  predicate Aborts(c: SourceCode, apps: seq<Application>, langOf: string -> Result<string, DbError>)
  {
    LastBelonging(c, apps, 0) != -1 && langOf(c.instanceId).Err?
  }

  /** The codes that get a plugin: the installed ones, in order. */
  function InstalledCodes(codes: seq<SourceCode>, installedRepos: seq<SourceCode>): seq<SourceCode>
  {
    Filter(codes, (c: SourceCode) => Installed(c, installedRepos))
  }

  /** The installed codes of codes[i..]: codes[i] first when it is installed. */
  lemma InstalledCodesStep(codes: seq<SourceCode>, i: nat, installedRepos: seq<SourceCode>)
    requires i < |codes|
    ensures InstalledCodes(codes[i..], installedRepos) ==
              (if Installed(codes[i], installedRepos) then [codes[i]] else []) + InstalledCodes(codes[i + 1..], installedRepos)
  {
    assert codes[i..][0] == codes[i] && codes[i..][1..] == codes[i + 1..];
  }

  /** GeneratePlugins fails exactly when an installed code has a belonging
      application and its language lookup fails. */
  lemma {:induction false} BuildPluginsFails(codes: seq<SourceCode>, i: nat, acc: seq<Plugin>, installedRepos: seq<SourceCode>,
                                             apps: seq<Application>, langOf: string -> Result<string, DbError>, uuid: nat -> string)
    requires i <= |codes|
    ensures var todo := InstalledCodes(codes[i..], installedRepos);
            BuildPlugins(codes, i, acc, installedRepos, apps, langOf, uuid).Err? <==>
              exists k :: 0 <= k < |todo| && Aborts(todo[k], apps, langOf)
    decreases |codes| - i
  {
    var todo := InstalledCodes(codes[i..], installedRepos);
    if i == |codes| {
      assert codes[i..] == [];
    } else {
      var c := codes[i];
      var rest := InstalledCodes(codes[i + 1..], installedRepos);
      InstalledCodesStep(codes, i, installedRepos);
      if !Installed(c, installedRepos) {
        assert todo == rest;
        BuildPluginsFails(codes, i + 1, acc, installedRepos, apps, langOf, uuid);
      } else {
        assert todo == [c] + rest;
        var seed := NewPlugin(c, uuid(|acc|));
        AttachAppsSpec(seed, c, apps, 0, langOf);
        var first := AttachApps(seed, c, apps, 0, langOf);
        if first.Ok? {
          assert !Aborts(todo[0], apps, langOf);
          BuildPluginsFails(codes, i + 1, acc + [first.value], installedRepos, apps, langOf, uuid);
          forall k | 0 < k < |todo| ensures todo[k] == rest[k - 1] {
          }
          if exists k :: 0 <= k < |rest| && Aborts(rest[k], apps, langOf) {
            var k :| 0 <= k < |rest| && Aborts(rest[k], apps, langOf);
            assert todo[k + 1] == rest[k];
          }
        } else {
          assert Aborts(todo[0], apps, langOf);
        }
      }
    }
  }

  /** A successful GeneratePlugins keeps acc and then emits one plugin per
      installed code, in order, each EmittedFor its code with the next UUID. */
  lemma {:induction false} BuildPluginsShape(codes: seq<SourceCode>, i: nat, acc: seq<Plugin>, installedRepos: seq<SourceCode>,
                                             apps: seq<Application>, langOf: string -> Result<string, DbError>, uuid: nat -> string)
    requires i <= |codes|
    requires BuildPlugins(codes, i, acc, installedRepos, apps, langOf, uuid).Ok?
    ensures var ps := BuildPlugins(codes, i, acc, installedRepos, apps, langOf, uuid).value;
            var todo := InstalledCodes(codes[i..], installedRepos);
            && |ps| == |acc| + |todo| && ps[..|acc|] == acc
            && forall k :: 0 <= k < |todo| ==> EmittedFor(ps[|acc| + k], todo[k], uuid(|acc| + k), apps, langOf)
    decreases |codes| - i
  {
    var todo := InstalledCodes(codes[i..], installedRepos);
    if i == |codes| {
      assert codes[i..] == [];
    } else {
      var c := codes[i];
      var rest := InstalledCodes(codes[i + 1..], installedRepos);
      InstalledCodesStep(codes, i, installedRepos);
      if !Installed(c, installedRepos) {
        assert todo == rest;
        BuildPluginsShape(codes, i + 1, acc, installedRepos, apps, langOf, uuid);
      } else {
        assert todo == [c] + rest;
        var seed := NewPlugin(c, uuid(|acc|));
        AttachAppsSpec(seed, c, apps, 0, langOf);
        var first := AttachApps(seed, c, apps, 0, langOf).value;
        assert EmittedFor(first, c, uuid(|acc|), apps, langOf);
        var acc' := acc + [first];
        BuildPluginsShape(codes, i + 1, acc', installedRepos, apps, langOf, uuid);
        var ps := BuildPlugins(codes, i + 1, acc', installedRepos, apps, langOf, uuid).value;
        assert ps[..|acc|] == ps[..|acc'|][..|acc|];
        assert ps[|acc|] == ps[..|acc'|][|acc|] == first;
        forall k | 0 <= k < |todo| ensures EmittedFor(ps[|acc| + k], todo[k], uuid(|acc| + k), apps, langOf) {
          if k > 0 {
            assert todo[k] == rest[k - 1];
            assert |acc'| + (k - 1) == |acc| + k;
          }
        }
      }
    }
  }

  /** GeneratePlugins: keep the new source codes that are installed, create a
      plugin for each, and attach its applications. */
  method GeneratePlugins(installedRepos: seq<SourceCode>, codes: Result<seq<SourceCode>, DbError>,
                         plugins: Result<seq<Plugin>, DbError>, apps: Result<seq<Application>, DbError>,
                         langOf: string -> Result<string, DbError>, uuid: nat -> string)
    returns (r: Result<seq<Plugin>, DiffError>)
    ensures codes.Err? ==> r == Err(NewSourceCodesFailed(codes.error))
    ensures codes.Ok? && plugins.Err? ==> r == Err(NewSourceCodesFailed(plugins.error))
    ensures codes.Ok? && plugins.Ok? && apps.Err? ==> r == Err(ApplicationsFailed(apps.error))
    ensures codes.Ok? && plugins.Ok? && apps.Ok? ==>
              r == BuildPlugins(NewSourceCodes(codes.value, plugins.value), 0, [], installedRepos, apps.value, langOf, uuid)
  {
    var newCodes := GetNewSoftwareSourceCode(codes, plugins);
    if newCodes.Err? {
      return Err(NewSourceCodesFailed(newCodes.error));
    }
    if apps.Err? {
      return Err(ApplicationsFailed(apps.error));
    }
    var todo, candidates := newCodes.value, apps.value;
    var list: seq<Plugin> := [];
    var i := 0;
    while i < |todo|
      invariant 0 <= i <= |todo|
      invariant BuildPlugins(todo, 0, [], installedRepos, candidates, langOf, uuid) == BuildPlugins(todo, i, list, installedRepos, candidates, langOf, uuid)
    {
      var c := todo[i];
      var found := IsInstalled(c, installedRepos);
      if found {
        var seed := NewPlugin(c, uuid(|list|));
        var plugin := seed;
        var j := 0;
        while j < |candidates|
          invariant 0 <= j <= |candidates|
          invariant AttachApps(seed, c, candidates, 0, langOf) == AttachApps(plugin, c, candidates, j, langOf)
        {
          if CodeKey(c) == AppKey(candidates[j]) {
            var lang := langOf(c.instanceId);
            if lang.Err? {
              return Err(LanguageLookupFailed(lang.error));
            }
            plugin := Attach(plugin, candidates[j], lang.value);
          }
          j := j + 1;
        }
        list := list + [plugin];
      }
      i := i + 1;
    }
    return Ok(list);
  }

  /** Every plugin GeneratePlugins emits is for a source code that is both new
      and installed. */
  lemma GeneratedPluginsAreNewAndInstalled(codes: seq<SourceCode>, plugins: seq<Plugin>, installedRepos: seq<SourceCode>,
                                           apps: seq<Application>, langOf: string -> Result<string, DbError>, uuid: nat -> string)
    requires BuildPlugins(NewSourceCodes(codes, plugins), 0, [], installedRepos, apps, langOf, uuid).Ok?
    ensures var ps := BuildPlugins(NewSourceCodes(codes, plugins), 0, [], installedRepos, apps, langOf, uuid).value;
            forall k :: 0 <= k < |ps| ==>
              exists c :: c in codes && ps[k].softwareSourceCodeId == c.instanceId && Installed(c, installedRepos)
                          && c.instanceId !in RegisteredSourceCodes(plugins)
  {
    var newCodes := NewSourceCodes(codes, plugins);
    BuildPluginsShape(newCodes, 0, [], installedRepos, apps, langOf, uuid);
    assert newCodes[0..] == newCodes;
    var todo := InstalledCodes(newCodes, installedRepos);
    FilterSpec(newCodes, (c: SourceCode) => Installed(c, installedRepos));
    FilterSpec(codes, (c: SourceCode) => c.instanceId !in RegisteredSourceCodes(plugins));
    var ps := BuildPlugins(newCodes, 0, [], installedRepos, apps, langOf, uuid).value;
    forall k | 0 <= k < |ps|
      ensures exists c :: c in codes && ps[k].softwareSourceCodeId == c.instanceId && Installed(c, installedRepos)
                          && c.instanceId !in RegisteredSourceCodes(plugins)
    {
      assert EmittedFor(ps[0 + k], todo[k], uuid(0 + k), apps, langOf);
      assert todo[k] in todo;
    }
  }
}
