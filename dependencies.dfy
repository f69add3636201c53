/** pluginmanager/DependenciesUpdater.go: choose what to provision from the
    plugin's programming language, and the guarded steps of the Python path.
    The file check and the two external commands are oracles keyed by the
    plugin's directory name. */
module Dependencies {
  import opened Base
  import opened PluginsDir

  /** What the language selects. */
  datatype Provisioning = NothingToDo | PythonVenv | UnknownRuntime

  /** The switch on the language string: exact, case-sensitive matches only. */
  function Dispatch(lang: string): (r: Provisioning)
    ensures r == NothingToDo <==> lang == "Go" || lang == "Java"
    ensures r == PythonVenv <==> lang == "Python"
  {
    if lang == "Go" || lang == "Java" then NothingToDo
    else if lang == "Python" then PythonVenv
    else UnknownRuntime
  }

  /** A command run in PluginsPath/dir. */
  datatype Command = Command(dir: string, argv: seq<string>)

  function VenvCommand(dir: string): Command
  {
    Command(dir, ["python3", "-m", "venv", "venv"])
  }

  function PipCommand(dir: string): Command
  {
    Command(dir, ["venv/bin/pip", "install", "-r", "requirements.txt"])
  }

  /** The oracles: whether requirements.txt is in the directory, and whether
      each command exits successfully (None) or with an error message. */
  datatype Toolchain = Toolchain(
    requirements: string -> StatResult,
    venv: string -> Option<string>,
    pip: string -> Option<string>)

  datatype DepError =
    | LanguageLookupFailed(instanceId: string, cause: DbError)
    | NoRuntime(lang: string)                 // "error: unknown runtime: <lang>"
    | RequirementsMissing                     // requirements.txt not found
    | RequirementsStatFailed(msg: string)     // any other stat failure
    | VenvFailed(msg: string)                 // "error creating venv environment"

  /** A step sequence ends by returning (None for nil) or by log.Fatalf ending the process. */
  datatype Outcome = Returned(err: Option<DepError>) | ProcessExit

  /** The outcome and the commands run, in order. */
  datatype DepRun = DepRun(outcome: Outcome, ran: seq<Command>)

  /** handlePyhonDependencies for the plugin in PluginsPath/dir. */
  function HandlePythonDependencies(dir: string, tools: Toolchain): (r: DepRun)
    ensures r.ran == [] || r.ran == [VenvCommand(dir)] || r.ran == [VenvCommand(dir), PipCommand(dir)]
    ensures r.ran == [] <==> tools.requirements(dir) != Exists
    ensures tools.requirements(dir) == NotExist ==> r.outcome == Returned(Some(RequirementsMissing))
    ensures PipCommand(dir) in r.ran <==> tools.requirements(dir) == Exists && tools.venv(dir).None?
    ensures r.outcome == ProcessExit <==> PipCommand(dir) in r.ran && tools.pip(dir).Some?
    ensures r.outcome == Returned(None) <==> PipCommand(dir) in r.ran && tools.pip(dir).None?
  {
    match tools.requirements(dir)
    case NotExist => DepRun(Returned(Some(RequirementsMissing)), [])
    case StatFailed(msg) => DepRun(Returned(Some(RequirementsStatFailed(msg))), [])
    case Exists =>
      match tools.venv(dir)
      case Some(msg) => DepRun(Returned(Some(VenvFailed(msg))), [VenvCommand(dir)])
      case None =>
        var ran := [VenvCommand(dir), PipCommand(dir)];
        if tools.pip(dir).Some? then DepRun(ProcessExit, ran) else DepRun(Returned(None), ran)
  }

  /** UpdateDependencies for the source code with the given instance id: look
      up its language, then provision by language. */
  function UpdateDependencies(instanceId: string, langOf: string -> Result<string, DbError>, tools: Toolchain): (r: DepRun)
    ensures langOf(instanceId).Err? ==> r == DepRun(Returned(Some(LanguageLookupFailed(instanceId, langOf(instanceId).error))), [])
    ensures langOf(instanceId).Ok? ==>
              match Dispatch(langOf(instanceId).value)
              case NothingToDo => r == DepRun(Returned(None), [])
              case PythonVenv => r == HandlePythonDependencies(instanceId, tools)
              case UnknownRuntime => r == DepRun(Returned(Some(NoRuntime(langOf(instanceId).value))), [])
  {
    match langOf(instanceId)
    case Err(e) => DepRun(Returned(Some(LanguageLookupFailed(instanceId, e))), [])
    case Ok(lang) =>
      match Dispatch(lang)
      case NothingToDo => DepRun(Returned(None), [])
      case PythonVenv => HandlePythonDependencies(instanceId, tools)
      case UnknownRuntime => DepRun(Returned(Some(NoRuntime(lang))), [])
  }

  /** Provisioning succeeds for Go and Java without running anything, for
      Python exactly when both commands succeed, and for no other language;
      the process ends only on a failed pip run of a Python plugin. */
  lemma UpdateDependenciesOutcome(instanceId: string, langOf: string -> Result<string, DbError>, tools: Toolchain)
    ensures var r := UpdateDependencies(instanceId, langOf, tools);
            && (r.outcome == Returned(None) <==>
                  langOf(instanceId).Ok? &&
                  (langOf(instanceId).value in {"Go", "Java"} ||
                   (langOf(instanceId).value == "Python" && tools.requirements(instanceId) == Exists
                    && tools.venv(instanceId).None? && tools.pip(instanceId).None?)))
            && (r.outcome == ProcessExit <==>
                  langOf(instanceId) == Ok("Python") && tools.requirements(instanceId) == Exists
                  && tools.venv(instanceId).None? && tools.pip(instanceId).Some?)
            && (r.ran != [] ==> langOf(instanceId) == Ok("Python"))
  {
    var r := UpdateDependencies(instanceId, langOf, tools);
    if langOf(instanceId).Ok? && langOf(instanceId).value == "Python" {
      var h := HandlePythonDependencies(instanceId, tools);
      assert r == h;
      if tools.requirements(instanceId) == Exists && tools.venv(instanceId).None? {
        assert PipCommand(instanceId) in h.ran;
      }
    }
  }
}
