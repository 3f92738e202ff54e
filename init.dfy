/** src/ops/init.rs: creating a project from a registered template. Every
    query and effect outside the model (git, the template cache, hooks, the
    file system) is answered by a `World` record, and `CmdInit` returns the
    actions it issued, in order. */
module Init {
  import opened Errors
  import opened Utilities
  import opened Configuration
  import opened Git
  import Registry
  import Resolved

  /** The resolved options `cmd_init` reads beyond the hooks. The call site
      builds them from the configuration, the template and the `--git` and
      `--write-mode` flags by a four-argument `build` that is not part of
      this model, so they are an input. */
  datatype InitOptions = InitOptions(
    git: GitMode,
    writeMode: WriteMode,
    noCache: bool,
    gitRef: Option<string>,
    updateOnInit: UpdateOnInit,
    exclude: seq<string>)

  /** The effects and checks `cmd_init` issues outside the model. */
  datatype Action =
    | MakeTempDir | CloneRepo | CheckoutRef | EnsureCached | UpdateCache | FetchOrigin | ResetHardOrigin
    | CreateTarget | PreInitHook | CheckEmpty
    | CopyTemplate | AddAndCommit | InitAndCommit | CloneLocal | SetRemoteUrl
    | PostInitHook

  /** What the source-resolution helpers answer. */
  datatype SourceAnswers = SourceAnswers(
    tempDir: Result<Path>,      // `tempfile::tempdir`
    clone: Result<()>,          // `git::clone_repo`
    checkout: Result<()>,       // `git::checkout_ref`
    cached: Result<Path>,       // `git_cache::ensure_cached`
    localPath: Path,            // `PathBuf::from(location)`
    localHasGitDir: bool)       // `location/.git` exists

  datatype Resolution = Resolution(result: Result<Path>, actions: seq<Action>)

  /** `resolve_template_path`: a URL is cloned into a temporary directory or
      served from the cache, optionally refreshed and checked out; a local
      path is used as it is, refreshed from its remote only when it is an
      unpinned repository and the policy is `Always`, ignoring failures. */
  function ResolveTemplatePath(isUrl: bool, opts: InitOptions, a: SourceAnswers): (r: Resolution)
    // Without a cache: temporary directory, clone, then the pinned ref.
    ensures isUrl && opts.noCache ==>
      && (a.tempDir.Err? ==> r == Resolution(Err(Context("failed to create temp dir", a.tempDir.error)), [MakeTempDir]))
      && (a.tempDir.Ok? && a.clone.Err? ==> r == Resolution(Err(a.clone.error), [MakeTempDir, CloneRepo]))
      && (a.tempDir.Ok? && a.clone.Ok? && opts.gitRef.None? ==> r == Resolution(Ok(a.tempDir.value), [MakeTempDir, CloneRepo]))
      && (a.tempDir.Ok? && a.clone.Ok? && opts.gitRef.Some? ==>
            r.actions == [MakeTempDir, CloneRepo, CheckoutRef]
            && r.result == (if a.checkout.Ok? then Ok(a.tempDir.value) else Err(a.checkout.error)))
    // With the cache: refreshed unless the policy is `Never`, refresh failures ignored.
    ensures isUrl && !opts.noCache ==>
      && (a.cached.Err? ==> r == Resolution(Err(a.cached.error), [EnsureCached]))
      && (a.cached.Ok? ==>
            var refreshed := [EnsureCached] + (if opts.updateOnInit != Never then [UpdateCache] else []);
            && (opts.gitRef.None? ==> r == Resolution(Ok(a.cached.value), refreshed))
            && (opts.gitRef.Some? ==>
                  r.actions == refreshed + [CheckoutRef]
                  && r.result == (if a.checkout.Ok? then Ok(a.cached.value) else Err(a.checkout.error))))
    // A local path never fails here.
    ensures !isUrl ==>
      && r.result == Ok(a.localPath)
      && r.actions == (if opts.gitRef.None? && opts.updateOnInit == Always && a.localHasGitDir
                       then [FetchOrigin, ResetHardOrigin] else [])
    // A ref is checked out only for a URL with a ref, and nothing else moves a local tree.
    ensures CheckoutRef in r.actions <==> isUrl && opts.gitRef.Some? && (if opts.noCache then a.tempDir.Ok? && a.clone.Ok? else a.cached.Ok?)
  {
    if isUrl then
      if opts.noCache then
        if a.tempDir.Err? then Resolution(Err(Context("failed to create temp dir", a.tempDir.error)), [MakeTempDir])
        else if a.clone.Err? then Resolution(Err(a.clone.error), [MakeTempDir, CloneRepo])
        else if opts.gitRef.Some? then
          Resolution(if a.checkout.Err? then Err(a.checkout.error) else Ok(a.tempDir.value), [MakeTempDir, CloneRepo, CheckoutRef])
        else Resolution(Ok(a.tempDir.value), [MakeTempDir, CloneRepo])
      else if a.cached.Err? then Resolution(Err(a.cached.error), [EnsureCached])
      else
        var refreshed := [EnsureCached] + (if opts.updateOnInit != Never then [UpdateCache] else []);
        if opts.gitRef.Some? then
          Resolution(if a.checkout.Err? then Err(a.checkout.error) else Ok(a.cached.value), refreshed + [CheckoutRef])
        else Resolution(Ok(a.cached.value), refreshed)
    else
      Resolution(Ok(a.localPath),
        if opts.gitRef.None? && opts.updateOnInit == Always && a.localHasGitDir then [FetchOrigin, ResetHardOrigin] else [])
  }

  /** Everything else `cmd_init` asks of the world. */
  datatype World = World(
    registry: Result<map<string, Registry.Template>>, // `Registry::load`
    config: Config,
    options: InitOptions,
    isGitUrl: string -> bool,                          // `utilities::is_git_url`
    source: SourceAnswers,
    sourceIsDir: bool,          // the resolved source exists and is a directory
    targetExists: bool,
    createTarget: Result<()>,   // `create_dir_all(target)`
    canonical: Result<Path>,    // `target.canonicalize()`
    home: Option<Path>,         // `$HOME`
    preHook: ProcessOutput,
    targetEmpty: Result<bool>,  // `is_dir_empty(target)`
    copy: Result<()>,           // `copy_template`
    copiedGitDir: bool,         // `target/.git` exists after the copy
    addAndCommit: Result<()>,   // `git::add_and_commit`
    git: seq<string> -> ProcessOutput,
    cloneLocal: Result<()>,     // `git::clone_local`
    setRemote: Result<()>,      // `git::set_remote_url`
    postHook: ProcessOutput)

  /** The actions of the git-mode dispatch. */
  function Dispatch(mode: GitMode, copiedGitDir: bool, isUrl: bool): (r: seq<Action>)
    ensures mode != Preserve <==> CopyTemplate in r
    ensures mode == Preserve <==> CloneLocal in r
    ensures (AddAndCommit in r || InitAndCommit in r) <==> mode == Fresh
    ensures SetRemoteUrl in r <==> mode == Preserve && isUrl
    ensures mode == NoGit ==> r == [CopyTemplate]
  {
    match mode
    case Fresh => [CopyTemplate, if copiedGitDir then AddAndCommit else InitAndCommit]
    case Preserve => [CloneLocal] + (if isUrl then [SetRemoteUrl] else [])
    case NoGit => [CopyTemplate]
  }

  /** `git::init_and_commit` as the git module models it: the identity check,
      then init, add and commit. */
  function InitAndCommitResult(templateName: string, git: seq<string> -> ProcessOutput): Result<()>
  {
    match IdentityCheck(git(["config", "user.name"]), git(["config", "user.email"]))
    case Err(e) => Err(e)
    case Ok(_) => CommitResult(templateName, git)
  }

  predicate Prefix(a: seq<Action>, b: seq<Action>)
  {
    |a| <= |b| && b[..|a|] == a
  }

  /** The actions up to the danger check when nothing fails: resolve the
      source, then create the target if it is missing. */
  function LocatePlan(w: World, template: Registry.Template): seq<Action>
  {
    ResolveTemplatePath(w.isGitUrl(template.location), w.options, w.source).actions
      + (if w.targetExists then [] else [CreateTarget])
  }

  /** The actions of the guard phase when no guard fails, in order: resolve,
      create the target if needed, pre-init hook, emptiness check in `Strict`
      mode. */
  function GuardPlan(w: World, template: Registry.Template): seq<Action>
  {
    LocatePlan(w, template)
      + (if Resolved.Build(w.config, template).preInit.Some? then [PreInitHook] else [])
      + (if w.options.writeMode == Strict then [CheckEmpty] else [])
  }

  /** The actions a run issues when nothing fails: the guards, the git-mode
      dispatch, the post-init hook. */
  function Plan(w: World, template: Registry.Template): seq<Action>
  {
    GuardPlan(w, template)
      + Dispatch(w.options.git, w.copiedGitDir, w.isGitUrl(template.location))
      + (if Resolved.Build(w.config, template).postInit.Some? then [PostInitHook] else [])
  }

  /** The source resolves to a directory and the target exists, has a
      canonical form and is not dangerous. */
  predicate Located(w: World, template: Registry.Template)
  {
    && ResolveTemplatePath(w.isGitUrl(template.location), w.options, w.source).result.Ok?
    && w.sourceIsDir
    && (w.targetExists || w.createTarget.Ok?)
    && w.canonical.Ok?
    && !IsDangerousPath(w.canonical.value, w.home)
  }

  /** The guards that must all pass before anything is copied or cloned into
      the target. */
  predicate ChecksPass(w: World, template: Registry.Template)
  {
    var hooks := Resolved.Build(w.config, template);
    && Located(w, template)
    && (hooks.preInit.None? || RunHook(hooks.preInit.value, w.preHook).Ok?)
    && (w.options.writeMode == Strict ==> w.targetEmpty == Ok(true))
  }

  const LIST_HINT: string := "run 'templative list' to see available templates"
  const POST_INIT_WARNING: string := "warning: post-init hook failed: "

  /** The first guards of `cmd_init`: resolve the source, create and
      canonicalize the target, refuse a dangerous one. */
  method Locate(target: Path, w: World, template: Registry.Template) returns (r: Result<Path>, trace: seq<Action>)
    ensures Prefix(trace, LocatePlan(w, template))
    ensures r.Ok? <==> Located(w, template)
    ensures r.Ok? ==> r == w.canonical && trace == LocatePlan(w, template)
    ensures var resolved := ResolveTemplatePath(w.isGitUrl(template.location), w.options, w.source);
      // A source that cannot be resolved or is not a directory fails before the target is created.
      && (resolved.result.Err? ==> r == Err(resolved.result.error) && trace == resolved.actions)
      && (resolved.result.Ok? && !w.sourceIsDir ==>
            r == Err(Templative(TemplatePathMissing(resolved.result.value))) && trace == resolved.actions)
      && (resolved.result.Ok? && w.sourceIsDir ==>
            && (!w.targetExists && w.createTarget.Err? ==>
                  r == Err(Context("failed to create target: " + Display(target), w.createTarget.error)))
            && ((w.targetExists || w.createTarget.Ok?) && w.canonical.Err? ==>
                  r == Err(Context("failed to canonicalize target: " + Display(target), w.canonical.error)))
            // A dangerous target is refused once it exists.
            && ((w.targetExists || w.createTarget.Ok?) && w.canonical.Ok? && IsDangerousPath(w.canonical.value, w.home) ==>
                  r == Err(Templative(DangerousPath(w.canonical.value))) && trace == LocatePlan(w, template)))
  {
    var resolved := ResolveTemplatePath(w.isGitUrl(template.location), w.options, w.source);
    trace := resolved.actions;
    if resolved.result.Err? {
      return Err(resolved.result.error), trace;
    }
    if !w.sourceIsDir {
      return Err(Templative(TemplatePathMissing(resolved.result.value))), trace;
    }
    if !w.targetExists {
      trace := trace + [CreateTarget];
      if w.createTarget.Err? {
        return Err(Context("failed to create target: " + Display(target), w.createTarget.error)), trace;
      }
    }
    if w.canonical.Err? {
      return Err(Context("failed to canonicalize target: " + Display(target), w.canonical.error)), trace;
    }
    if IsDangerousPath(w.canonical.value, w.home) {
      return Err(Templative(DangerousPath(w.canonical.value))), trace;
    }
    r := w.canonical;
  }

  /** The guard phase of `cmd_init`, up to the emptiness check: it gives the
      canonical target when every guard passes. */
  method Guard(target: Path, w: World, template: Registry.Template) returns (r: Result<Path>, trace: seq<Action>)
    ensures Prefix(trace, GuardPlan(w, template))
    ensures r.Ok? <==> ChecksPass(w, template)
    ensures r.Ok? ==> r == w.canonical && trace == GuardPlan(w, template)
    // A dangerous target fails before the hook and the emptiness check.
    ensures !Located(w, template) ==> Prefix(trace, LocatePlan(w, template))
    // The pre-init hook runs before the emptiness check, and its failure aborts.
    ensures Located(w, template) ==> var hooks := Resolved.Build(w.config, template);
      && (hooks.preInit.Some? && RunHook(hooks.preInit.value, w.preHook).Err? ==>
            r == Err(RunHook(hooks.preInit.value, w.preHook).error) && trace == LocatePlan(w, template) + [PreInitHook])
      // Strict mode with a non-empty target fails once the hook has passed.
      && (w.options.writeMode == Strict && w.targetEmpty == Ok(false)
          && (hooks.preInit.None? || RunHook(hooks.preInit.value, w.preHook).Ok?) ==>
            r == Err(Templative(TargetNotEmpty)))
  {
    var hooks := Resolved.Build(w.config, template);
    r, trace := Locate(target, w, template);
    if r.Err? {
      PrefixExtends(trace, LocatePlan(w, template), GuardPlan(w, template));
      return;
    }
    if hooks.preInit.Some? {
      trace := trace + [PreInitHook];
      var ran := RunHook(hooks.preInit.value, w.preHook);
      if ran.Err? {
        return Err(ran.error), trace;
      }
    }
    if w.options.writeMode == Strict {
      trace := trace + [CheckEmpty];
      if w.targetEmpty.Err? {
        return Err(w.targetEmpty.error), trace;
      }
      if !w.targetEmpty.value {
        return Err(Templative(TargetNotEmpty)), trace;
      }
    }
  }

  /** `cmd_init`: look the template up, pass the guards, dispatch on the git
      mode, then run the post-init hook, whose failure only warns. */
  method CmdInit(templateName: string, target: Path, w: World)
    returns (r: Result<()>, trace: seq<Action>, printed: seq<string>, warnings: seq<string>)
    ensures w.registry.Err? ==> r == Err(w.registry.error) && trace == []
    ensures w.registry.Ok? && templateName !in w.registry.value ==>
      r == Err(Context(LIST_HINT, Templative(TemplateNotFound(templateName)))) && trace == []
    ensures w.registry.Ok? && templateName in w.registry.value ==>
      var template := w.registry.value[templateName];
      // The actions taken are always the start of the plan, and all of it on success.
      && Prefix(trace, Plan(w, template))
      && (r.Ok? ==> trace == Plan(w, template))
      // Nothing is copied or cloned, and no commit is made, before every guard has passed.
      && (!ChecksPass(w, template) ==>
            && r.Err? && Prefix(trace, GuardPlan(w, template))
            && CopyTemplate !in trace && CloneLocal !in trace && AddAndCommit !in trace && InitAndCommit !in trace)
    ensures w.registry.Ok? && templateName in w.registry.value && ChecksPass(w, w.registry.value[templateName]) ==>
      var template := w.registry.value[templateName];
      var hooks := Resolved.Build(w.config, template);
      // The dispatch decides the result; the post-init hook only warns.
      && r == DispatchResult(templateName, w, w.isGitUrl(template.location))
      // A failed copy stops before any git command.
      && (w.options.git != Preserve && w.copy.Err? ==> AddAndCommit !in trace && InitAndCommit !in trace)
      && (r.Ok? ==> printed == ["created " + Display(w.canonical.value) + " from " + templateName])
      && (r.Ok? && hooks.postInit.Some? && RunHook(hooks.postInit.value, w.postHook).Err? ==>
            warnings == [POST_INIT_WARNING + Render(RunHook(hooks.postInit.value, w.postHook).error)])
      && (r.Ok? && (hooks.postInit.None? || RunHook(hooks.postInit.value, w.postHook).Ok?) ==> warnings == [])
    ensures r.Err? ==> printed == [] && warnings == []
  {
    trace, printed, warnings := [], [], [];
    if w.registry.Err? {
      return Err(w.registry.error), trace, printed, warnings;
    }
    if templateName !in w.registry.value {
      return Err(Context(LIST_HINT, Templative(TemplateNotFound(templateName)))), trace, printed, warnings;
    }
    var template := w.registry.value[templateName];
    var hooks := Resolved.Build(w.config, template);
    var isUrl := w.isGitUrl(template.location);
    var guarded;
    guarded, trace := Guard(target, w, template);
    PrefixExtends(trace, GuardPlan(w, template), Plan(w, template));
    if guarded.Err? {
      GuardPlanHasNoEffects(w, template, trace);
      return Err(guarded.error), trace, printed, warnings;
    }
    var canonical := guarded.value;

    GuardPlanHasNoEffects(w, template, trace);
    var ran;
    r, ran := DispatchGit(templateName, w, isUrl);
    PrefixAfter(trace, ran, Dispatch(w.options.git, w.copiedGitDir, isUrl),
      if hooks.postInit.Some? then [PostInitHook] else []);
    trace := trace + ran;
    if r.Err? {
      return r, trace, printed, warnings;
    }
    if hooks.postInit.Some? {
      trace := trace + [PostInitHook];
      var ran := RunHook(hooks.postInit.value, w.postHook);
      if ran.Err? {
        warnings := [POST_INIT_WARNING + Render(ran.error)];
      }
    }
    printed := ["created " + Display(canonical) + " from " + templateName];
  }

  /** The actions that put content or history into the target. */
  predicate Effect(a: Action)
  {
    a == CopyTemplate || a == CloneLocal || a == AddAndCommit || a == InitAndCommit
  }

  predicate EffectFree(s: seq<Action>)
  {
    forall i :: 0 <= i < |s| ==> !Effect(s[i])
  }

  lemma EffectFreeConcat(a: seq<Action>, b: seq<Action>)
    requires EffectFree(a) && EffectFree(b)
    ensures EffectFree(a + b)
  {
  }

  /** Resolving the source puts nothing into the target. */
  lemma ResolveIsEffectFree(isUrl: bool, opts: InitOptions, a: SourceAnswers)
    ensures EffectFree(ResolveTemplatePath(isUrl, opts, a).actions)
  {
  }

  /** No copy, clone or commit happens during the guards. */
  lemma GuardPlanHasNoEffects(w: World, template: Registry.Template, trace: seq<Action>)
    requires Prefix(trace, GuardPlan(w, template))
    ensures CopyTemplate !in trace && CloneLocal !in trace && AddAndCommit !in trace && InitAndCommit !in trace
  {
    var resolved := ResolveTemplatePath(w.isGitUrl(template.location), w.options, w.source).actions;
    var created: seq<Action> := if w.targetExists then [] else [CreateTarget];
    var hook := if Resolved.Build(w.config, template).preInit.Some? then [PreInitHook] else [];
    var check := if w.options.writeMode == Strict then [CheckEmpty] else [];
    ResolveIsEffectFree(w.isGitUrl(template.location), w.options, w.source);
    EffectFreeConcat(resolved, created);
    EffectFreeConcat(resolved + created, hook);
    EffectFreeConcat(resolved + created + hook, check);
    assert GuardPlan(w, template) == resolved + created + hook + check;
    assert EffectFree(trace);
  }

  /** A guard trace followed by part of the dispatch is the start of the plan. */
  lemma PrefixAfter(guards: seq<Action>, ran: seq<Action>, dispatch: seq<Action>, post: seq<Action>)
    requires Prefix(ran, dispatch)
    ensures Prefix(guards + ran, guards + dispatch + post)
  {
    assert (guards + dispatch + post)[..|guards + ran|] == guards + dispatch[..|ran|];
  }

  lemma PrefixExtends(a: seq<Action>, b: seq<Action>, c: seq<Action>)
    requires Prefix(a, b) && |b| <= |c| && c[..|b|] == b
    ensures Prefix(a, c)
  {
    assert c[..|a|] == c[..|b|][..|a|];
  }

  /** What the git-mode dispatch gives. */
  function DispatchResult(templateName: string, w: World, isUrl: bool): Result<()>
  {
    match w.options.git
    case Fresh =>
      if w.copy.Err? then w.copy
      else if w.copiedGitDir then w.addAndCommit
      else InitAndCommitResult(templateName, w.git)
    case Preserve => if w.cloneLocal.Err? then w.cloneLocal else if isUrl then w.setRemote else Ok(())
    case NoGit => w.copy
  }

  /** The `match resolved.git` of `cmd_init`: copy then commit, clone and
      point the remote at the URL, or copy alone. */
  method DispatchGit(templateName: string, w: World, isUrl: bool) returns (r: Result<()>, ran: seq<Action>)
    ensures r == DispatchResult(templateName, w, isUrl)
    // The actions issued are the dispatch plan, cut short by a failed copy or clone.
    ensures Prefix(ran, Dispatch(w.options.git, w.copiedGitDir, isUrl))
    ensures r.Ok? ==> ran == Dispatch(w.options.git, w.copiedGitDir, isUrl)
    ensures w.options.git != Preserve && w.copy.Err? ==> ran == [CopyTemplate]
    ensures w.options.git == Preserve && w.cloneLocal.Err? ==> ran == [CloneLocal]
    // A copy failure stops before any git command; `NoGit` runs none.
    ensures w.options.git != Preserve && w.copy.Err? ==> r == w.copy
    ensures w.options.git == Fresh && w.copy.Ok? && !w.copiedGitDir ==> r == InitAndCommitResult(templateName, w.git)
    ensures w.options.git == Preserve && w.cloneLocal.Ok? && !isUrl ==> r == Ok(())
  {
    match w.options.git {
      case Fresh =>
        ran := [CopyTemplate];
        if w.copy.Err? {
          return w.copy, ran;
        }
        if w.copiedGitDir {
          ran := ran + [AddAndCommit];
          r := w.addAndCommit;
        } else {
          ran := ran + [InitAndCommit];
          var commands;
          r, commands := Git.InitAndCommit(templateName, w.git);
        }
      case Preserve =>
        ran := [CloneLocal];
        if w.cloneLocal.Err? {
          return w.cloneLocal, ran;
        }
        if isUrl {
          ran := ran + [SetRemoteUrl];
          r := w.setRemote;
        } else {
          r := Ok(());
        }
      case NoGit =>
        ran := [CopyTemplate];
        r := w.copy;
    }
  }
}
