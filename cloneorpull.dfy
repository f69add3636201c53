/** pluginmanager/CloneOrPull.go: resolve the plugin's git reference, then
    clone into an absent directory or check out and pull in a present one.
    The three git operations are oracles over (path, options). */
module CloneOrPull {
  import opened Base
  import opened PluginsDir

  /** plumbing.NewBranchReferenceName / NewTagReferenceName. */
  datatype RefName = BranchRef(name: string) | TagRef(name: string)

  function FullName(r: RefName): string
  {
    match r
    case BranchRef(n) => "refs/heads/" + n
    case TagRef(n) => "refs/tags/" + n
  }

  /** "branch" selects a branch named by the version; every other version
      type, including "tag" and "", selects a tag. */
  function ResolveRef(p: Plugin): (r: RefName)
    ensures r.name == p.version
    ensures r.BranchRef? <==> p.versionType == "branch"
  {
    if p.versionType == "branch" then BranchRef(p.version) else TagRef(p.version)
  }

  /** Branch and tag references of the same name never coincide. */
  lemma FullNamesDistinct(a: RefName, b: RefName)
    ensures FullName(a) == FullName(b) <==> a == b
  {
    if a.BranchRef? != b.BranchRef? {
      assert FullName(a)[5] != FullName(b)[5];
    } else if FullName(a) == FullName(b) {
      var k := if a.BranchRef? then 11 else 10;
      assert a.name == FullName(a)[k..];
    }
  }

  datatype CloneOptions = CloneOptions(url: string, referenceName: RefName)
  datatype PullOptions = PullOptions(remoteName: string, referenceName: RefName, singleBranch: bool)
  datatype CheckoutOptions = CheckoutOptions(branch: RefName)

  function CloneOptionsFor(p: Plugin): CloneOptions
  {
    CloneOptions(p.repository, ResolveRef(p))
  }

  function PullOptionsFor(p: Plugin): PullOptions
  {
    PullOptions("origin", ResolveRef(p), true)
  }

  function CheckoutOptionsFor(p: Plugin): CheckoutOptions
  {
    CheckoutOptions(ResolveRef(p))
  }

  /** A git operation attempted, with its working path and options. */
  datatype GitStep =
    | Clone(path: string, cloneOptions: CloneOptions)
    | Checkout(path: string, checkoutOptions: CheckoutOptions)
    | Pull(path: string, pullOptions: PullOptions)

  function StepRef(s: GitStep): RefName
  {
    match s
    case Clone(_, o) => o.referenceName
    case Checkout(_, o) => o.branch
    case Pull(_, o) => o.referenceName
  }

  /** git.NoErrAlreadyUpToDate is reported apart from other pull errors. */
  datatype PullResult = Pulled | AlreadyUpToDate | PullError(msg: string)

  /** The oracles: None is success, Some(msg) an error. */
  datatype Git = Git(
    clone: (string, CloneOptions) -> Option<string>,
    checkout: (string, CheckoutOptions) -> Option<string>,
    pull: (string, PullOptions) -> PullResult)

  datatype GitError =
    | CloneFailed(id: string, msg: string)          // "error while cloning <id>: ..."
    | CheckoutFailed(ref: RefName, msg: string)     // "error checking out branch <ref>: ..."
    | PullFailed(msg: string)                       // "error pulling: ..."

  datatype GitRun = GitRun(err: Option<GitError>, steps: seq<GitStep>)

  /** CloneOrPull given what os.Stat reports for the plugin's directory. */
  function CloneOrPullRun(stat: StatResult, p: Plugin, git: Git): (r: GitRun)
    ensures forall k :: 0 <= k < |r.steps| ==> StepRef(r.steps[k]) == ResolveRef(p) && r.steps[k].path == RepoPath(p.id)
    ensures stat == NotExist ==> r.steps == [Clone(RepoPath(p.id), CloneOptionsFor(p))]
    ensures stat != NotExist ==>
              && 1 <= |r.steps| <= 2 && r.steps[0] == Checkout(RepoPath(p.id), CheckoutOptionsFor(p))
              && (|r.steps| == 2 <==> git.checkout(RepoPath(p.id), CheckoutOptionsFor(p)).None?)
              && (|r.steps| == 2 ==> r.steps[1] == Pull(RepoPath(p.id), PullOptionsFor(p)))
    ensures r.err.None? <==>
              if stat == NotExist then git.clone(RepoPath(p.id), CloneOptionsFor(p)).None?
              else git.checkout(RepoPath(p.id), CheckoutOptionsFor(p)).None?
                   && !git.pull(RepoPath(p.id), PullOptionsFor(p)).PullError?
  {
    var path := RepoPath(p.id);
    if stat == NotExist then
      var steps := [Clone(path, CloneOptionsFor(p))];
      match git.clone(path, CloneOptionsFor(p))
      case Some(e) => GitRun(Some(CloneFailed(p.id, e)), steps)
      case None => GitRun(None, steps)
    else
      match git.checkout(path, CheckoutOptionsFor(p))
      case Some(e) => GitRun(Some(CheckoutFailed(ResolveRef(p), e)), [Checkout(path, CheckoutOptionsFor(p))])
      case None =>
        var steps := [Checkout(path, CheckoutOptionsFor(p)), Pull(path, PullOptionsFor(p))];
        match git.pull(path, PullOptionsFor(p))
        case PullError(e) => GitRun(Some(PullFailed(e)), steps)
        case _ => GitRun(None, steps)
  }

  /** CloneOrPull against the plugins directory: a successful clone leaves the
      plugin's directory in place; nothing else changes the directory set. */
  method CloneOrPull(fs: Dir, p: Plugin, git: Git) returns (r: GitRun)
    modifies fs
    ensures r == CloneOrPullRun(old(fs.Stat(p.id)), p, git)
    ensures fs.dirs == if old(fs.Stat(p.id)) == NotExist && r.err.None? then old(fs.dirs) + {p.id} else old(fs.dirs)
  {
    var path := RepoPath(p.id);
    var ref := ResolveRef(p);
    var cloneOptions, pullOptions := CloneOptions(p.repository, ref), PullOptions("origin", ref, true);
    if fs.Stat(p.id) == NotExist {
      var steps := [Clone(path, cloneOptions)];
      var e := git.clone(path, cloneOptions);
      if e.Some? {
        return GitRun(Some(CloneFailed(p.id, e.value)), steps);
      }
      fs.AddDir(p.id);
      return GitRun(None, steps);
    }
    var checkoutOptions := CheckoutOptions(ref);
    var e := git.checkout(path, checkoutOptions);
    if e.Some? {
      return GitRun(Some(CheckoutFailed(ref, e.value)), [Checkout(path, checkoutOptions)]);
    }
    var steps := [Checkout(path, checkoutOptions), Pull(path, pullOptions)];
    var pulled := git.pull(path, pullOptions);
    if pulled.PullError? {
      return GitRun(Some(PullFailed(pulled.msg)), steps);
    }
    return GitRun(None, steps);
  }

  /** After a successful clone the directory exists, so the next run for the
      same plugin checks out and pulls instead of cloning again. */
  lemma CloneThenPull(dirs: set<string>, statFaults: set<string>, p: Plugin, git: Git, git': Git)
    requires p.id !in dirs && p.id !in statFaults
    requires git.clone(RepoPath(p.id), CloneOptionsFor(p)).None?
    ensures StatIn(dirs, statFaults, p.id) == NotExist
    ensures CloneOrPullRun(StatIn(dirs, statFaults, p.id), p, git).err.None?
    ensures StatIn(dirs + {p.id}, statFaults, p.id) == Exists
    ensures var second := CloneOrPullRun(StatIn(dirs + {p.id}, statFaults, p.id), p, git');
            second.steps[0] == Checkout(RepoPath(p.id), CheckoutOptionsFor(p))
            && forall k :: 0 <= k < |second.steps| ==> !second.steps[k].Clone?
  {
  }
}
