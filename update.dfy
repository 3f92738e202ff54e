/** src/ops/update.rs: refreshing registered templates from git. Each git
    query and command is answered by a `GitAnswers` record for the template;
    the functions return the status text and the git operations they issued. */
module Update {
  import opened Errors
  import opened Text
  import opened Git
  import opened FileSystem
  import opened Persist
  import opened Registry

  /** What the git helpers answer for one template. */
  datatype GitAnswers = GitAnswers(
    cachePath: Result<Path>,    // `cache_path_for_url`
    cacheExists: bool,          // `cache_path.exists()`
    ensureCached: Result<Path>, // `git_cache::ensure_cached`
    fetch: Result<()>,          // `git::fetch_origin`
    isGitRepo: bool,            // `git::is_git_repo`
    behind: bool,               // `git::is_behind_remote`
    refKind: RefKind,           // `git::classify_ref`
    checkout: Result<()>,       // `git::checkout_ref`
    reset: Result<()>,          // `git::reset_hard_origin`
    pull: Result<()>)           // `git::pull_ff_only`

  /** The git operations an update issues, in order. */
  datatype GitOp = EnsureCached | IsGitRepo | FetchOrigin | IsBehindRemote | ClassifyRef
    | CheckoutRef | ResetHardOrigin | PullFfOnly

  /** The operations that change a working tree. */
  predicate Moves(op: GitOp)
  {
    op == CheckoutRef || op == ResetHardOrigin || op == PullFfOnly
  }

  predicate ReadOnly(ops: seq<GitOp>)
  {
    forall i :: 0 <= i < |ops| ==> !Moves(ops[i])
  }

  datatype Outcome = Outcome(result: Result<string>, ops: seq<GitOp>)

  const UPDATED: string := "updated"
  const PINNED: string := "skipped (pinned to immutable ref)"
  const NOT_A_REPO: string := "skipped (not a git repository)"

  function CheckStatus(behind: bool): string
  {
    if behind then "update available" else "up to date"
  }

  /** The part both paths share once the repository is fetched: report in
      check mode, otherwise follow a branch ref, leave a pinned ref alone, or
      move to the remote head with `advance`. */
  function AfterFetch(t: Template, check: bool, g: GitAnswers, advance: GitOp, advanced: Result<()>, context: string)
    : (r: Outcome)
    requires Moves(advance)
    ensures check ==> r == Outcome(Ok(CheckStatus(g.behind)), [IsBehindRemote])
    ensures ReadOnly(r.ops) <==> check || (t.gitRef.Some? && g.refKind != Branch)
    ensures !check && t.gitRef.Some? && g.refKind != Branch ==> r.result == Ok(PINNED)
    ensures !check && t.gitRef.Some? && g.refKind == Branch ==>
      r.result == (if g.checkout.Ok? then Ok(UPDATED) else Err(g.checkout.error)) && r.ops == [ClassifyRef, CheckoutRef]
    ensures !check && t.gitRef.None? ==>
      r.result == (if advanced.Ok? then Ok(UPDATED) else Err(Context(context, advanced.error))) && r.ops == [advance]
  {
    if check then Outcome(Ok(CheckStatus(g.behind)), [IsBehindRemote])
    else if t.gitRef.Some? then
      match g.refKind
      case Branch =>
        assert Moves([ClassifyRef, CheckoutRef][1]);
        Outcome(if g.checkout.Err? then Err(g.checkout.error) else Ok(UPDATED), [ClassifyRef, CheckoutRef])
      case _ => Outcome(Ok(PINNED), [ClassifyRef])
    else
      assert Moves([advance][0]);
      Outcome(if advanced.Err? then Err(Context(context, advanced.error)) else Ok(UPDATED), [advance])
  }

  /** `update_url_template`: make sure the cache exists, fetch (fatally),
      then continue in the cache. */
  function UpdateUrl(t: Template, check: bool, g: GitAnswers): (r: Outcome)
    ensures g.cachePath.Err? ==> r == Outcome(Err(g.cachePath.error), [])
    ensures g.cachePath.Ok? && !g.cacheExists && g.ensureCached.Err? ==> r == Outcome(Err(g.ensureCached.error), [EnsureCached])
    ensures g.cachePath.Ok? && (g.cacheExists || g.ensureCached.Ok?) && g.fetch.Err? ==>
      r.result == Err(Context("fetch failed", g.fetch.error)) && ReadOnly(r.ops)
    ensures g.cachePath.Ok? && (g.cacheExists || g.ensureCached.Ok?) && g.fetch.Ok? ==>
      var rest := AfterFetch(t, check, g, ResetHardOrigin, g.reset, "reset failed");
      r.result == rest.result && r.ops == (if g.cacheExists then [] else [EnsureCached]) + [FetchOrigin] + rest.ops
    ensures check ==> ReadOnly(r.ops)
  {
    if g.cachePath.Err? then Outcome(Err(g.cachePath.error), [])
    else
      var cloned := if g.cacheExists then [] else [EnsureCached];
      if !g.cacheExists && g.ensureCached.Err? then Outcome(Err(g.ensureCached.error), cloned)
      else if g.fetch.Err? then Outcome(Err(Context("fetch failed", g.fetch.error)), cloned + [FetchOrigin])
      else
        var rest := AfterFetch(t, check, g, ResetHardOrigin, g.reset, "reset failed");
        Outcome(rest.result, cloned + [FetchOrigin] + rest.ops)
  }

  /** `update_local_template`: skip a directory that is not a repository,
      fetch (ignoring failure), then continue in place. */
  function UpdateLocal(t: Template, check: bool, g: GitAnswers): (r: Outcome)
    ensures !g.isGitRepo ==> r == Outcome(Ok(NOT_A_REPO), [IsGitRepo])
    ensures g.isGitRepo ==>
      var rest := AfterFetch(t, check, g, PullFfOnly, g.pull, "pull failed");
      r.result == rest.result && r.ops == [IsGitRepo, FetchOrigin] + rest.ops
    ensures check ==> ReadOnly(r.ops)
  {
    if !g.isGitRepo then Outcome(Ok(NOT_A_REPO), [IsGitRepo])
    else
      var rest := AfterFetch(t, check, g, PullFfOnly, g.pull, "pull failed");
      Outcome(rest.result, [IsGitRepo, FetchOrigin] + rest.ops)
  }

  /** A failed fetch stops a URL template but not a local one. */
  lemma FetchFailure(t: Template, check: bool, g: GitAnswers)
    requires g.fetch.Err? && g.cachePath.Ok? && g.cacheExists && g.isGitRepo
    ensures UpdateUrl(t, check, g).result == Err(Context("fetch failed", g.fetch.error))
    ensures UpdateLocal(t, check, g) == UpdateLocal(t, check, g.(fetch := Ok(())))
  {
  }

  /** `update_template`: URL locations take the URL path, all others the
      local one. */
  function UpdateTemplate(t: Template, check: bool, isGitUrl: string -> bool, g: GitAnswers): (r: Outcome)
    ensures isGitUrl(t.location) ==> r == UpdateUrl(t, check, g)
    ensures !isGitUrl(t.location) ==> r == UpdateLocal(t, check, g)
    ensures check ==> ReadOnly(r.ops)
  {
    if isGitUrl(t.location) then UpdateUrl(t, check, g) else UpdateLocal(t, check, g)
  }

  /** The templates `cmd_update` works on: the named one, or all of them in
      name order. */
  function Select(templates: map<string, Template>, name: Option<string>): (r: Result<seq<Template>>)
    ensures name.Some? && name.value !in templates ==> r == Err(Templative(TemplateNotFound(name.value)))
    ensures name.Some? && name.value in templates ==> r == Ok([templates[name.value]])
    ensures name.None? ==>
      && r.Ok? && |r.value| == |templates|
      && forall i :: 0 <= i < |r.value| ==> r.value[i] == templates[SortedKeys(templates.Keys)[i]]
  {
    match name
    case Some(n) => if n in templates then Ok([templates[n]]) else Err(Templative(TemplateNotFound(n)))
    case None => Ok(InNameOrder(templates))
  }

  /** The line printed for each template that updated, in order. */
  function Reports(ts: seq<Template>, check: bool, isGitUrl: string -> bool, answers: Template -> GitAnswers): seq<string>
  {
    if ts == [] then []
    else
      var rest := Reports(ts[1..], check, isGitUrl, answers);
      match UpdateTemplate(ts[0], check, isGitUrl, answers(ts[0])).result
      case Ok(status) => [ts[0].name + ": " + status] + rest
      case Err(_) => rest
  }

  /** The line collected for each template that failed, in order. */
  function Failures(ts: seq<Template>, check: bool, isGitUrl: string -> bool, answers: Template -> GitAnswers): seq<string>
  {
    if ts == [] then []
    else
      var rest := Failures(ts[1..], check, isGitUrl, answers);
      match UpdateTemplate(ts[0], check, isGitUrl, answers(ts[0])).result
      case Ok(_) => rest
      case Err(e) => [ts[0].name + ": " + Render(e)] + rest
  }

  lemma {:induction false} ReportsSnoc(ts: seq<Template>, t: Template, check: bool, isGitUrl: string -> bool,
                                       answers: Template -> GitAnswers)
    ensures var result := UpdateTemplate(t, check, isGitUrl, answers(t)).result;
      && Reports(ts + [t], check, isGitUrl, answers) == Reports(ts, check, isGitUrl, answers)
        + (if result.Ok? then [t.name + ": " + result.value] else [])
      && Failures(ts + [t], check, isGitUrl, answers) == Failures(ts, check, isGitUrl, answers)
        + (if result.Err? then [t.name + ": " + Render(result.error)] else [])
  {
    if ts != [] {
      assert (ts + [t])[1..] == ts[1..] + [t];
      ReportsSnoc(ts[1..], t, check, isGitUrl, answers);
    } else {
      assert ts + [t] == [t];
    }
  }

  /** Every template is accounted for once: it is reported or it failed. */
  lemma {:induction false} EveryTemplateAccounted(ts: seq<Template>, check: bool, isGitUrl: string -> bool,
                                                  answers: Template -> GitAnswers)
    ensures |Reports(ts, check, isGitUrl, answers)| + |Failures(ts, check, isGitUrl, answers)| == |ts|
    ensures Failures(ts, check, isGitUrl, answers) == [] <==>
      forall i :: 0 <= i < |ts| ==> UpdateTemplate(ts[i], check, isGitUrl, answers(ts[i])).result.Ok?
  {
    if ts != [] {
      EveryTemplateAccounted(ts[1..], check, isGitUrl, answers);
      assert forall i :: 1 <= i < |ts| ==> ts[i] == ts[1..][i - 1];
    }
  }

  const NOTHING_REGISTERED: string := "no templates registered"

  /** The loop of `cmd_update`: try every template, print each success, and
      fail at the end listing every failure. */
  method UpdateAll(ts: seq<Template>, check: bool, isGitUrl: string -> bool, answers: Template -> GitAnswers)
    returns (r: Result<()>, printed: seq<string>)
    ensures printed == Reports(ts, check, isGitUrl, answers)
    ensures Failures(ts, check, isGitUrl, answers) == [] ==> r == Ok(())
    ensures Failures(ts, check, isGitUrl, answers) != [] ==>
      r == Err(Message("some templates failed to update:\n" + Join(Failures(ts, check, isGitUrl, answers), "\n")))
  {
    var errors: seq<string> := [];
    printed := [];
    for i := 0 to |ts|
      invariant printed == Reports(ts[..i], check, isGitUrl, answers)
      invariant errors == Failures(ts[..i], check, isGitUrl, answers)
    {
      assert ts[..i + 1] == ts[..i] + [ts[i]];
      ReportsSnoc(ts[..i], ts[i], check, isGitUrl, answers);
      var outcome := UpdateTemplate(ts[i], check, isGitUrl, answers(ts[i]));
      match outcome.result {
        case Ok(status) =>
          printed := printed + [ts[i].name + ": " + status];
        case Err(e) =>
          errors := errors + [ts[i].name + ": " + Render(e)];
      }
    }
    assert ts[..|ts|] == ts;
    if errors != [] {
      return Err(Message("some templates failed to update:\n" + Join(errors, "\n"))), printed;
    }
    r := Ok(());
  }

  /** `cmd_update`: load the registry, select the templates, and update them;
      an empty selection only prints a notice. */
  method CmdUpdate(fs: FileSystem, projectDir: Option<Path>, codec: Codec<RegistryData<Template>>,
                   name: Option<string>, check: bool, isGitUrl: string -> bool, answers: Template -> GitAnswers)
    returns (r: Result<()>, printed: seq<string>)
    requires fs.Valid()
    modifies fs
    ensures fs.Valid()
    ensures !Loadable(old(fs.nodes), projectDir, codec) ==> r.Err? && printed == []
    ensures Loadable(old(fs.nodes), projectDir, codec) ==>
      var selected := Select(Loaded(old(fs.nodes), projectDir, codec).templates, name);
      && (selected.Err? ==> r == Err(selected.error) && printed == [])
      && (selected.Ok? && selected.value == [] ==> r == Ok(()) && printed == [NOTHING_REGISTERED])
      && (selected.Ok? && selected.value != [] ==>
            && printed == Reports(selected.value, check, isGitUrl, answers)
            && (r.Ok? <==> Failures(selected.value, check, isGitUrl, answers) == []))
    // The only file-system effect is the load's: a missing registry file may
    // be created, nothing else is touched, and the updates themselves write nothing.
    ensures Loadable(old(fs.nodes), projectDir, codec) ==> fs.nodes == AfterLoad(old(fs.nodes), projectDir, codec)
    ensures projectDir.Some? ==> OnlySaveTouched(old(fs.nodes), fs.nodes, RegistryPath(projectDir.value))
    // Updating never rewrites an existing registry.
    ensures projectDir.Some? && RegistryPath(projectDir.value) in old(fs.nodes) ==> fs.nodes == old(fs.nodes)
  {
    printed := [];
    var registry := Load(fs, projectDir, codec);
    if registry.Err? {
      return Err(registry.error), printed;
    }
    var selected := Select(registry.value.templates, name);
    if selected.Err? {
      return Err(selected.error), printed;
    }
    if selected.value == [] {
      return Ok(()), [NOTHING_REGISTERED];
    }
    r, printed := UpdateAll(selected.value, check, isGitUrl, answers);
  }
}
