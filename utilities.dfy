/** The helpers of src/utilities.rs: the dangerous-target test, the choice of
    the configuration directory, the emptiness test and hooks. Environment
    variables and subprocess outcomes are parameters. */
module Utilities {
  import opened Errors
  import opened Text
  import opened FileSystem

  /** What running a subprocess gave: it could not be started, or it exited
      with a status code (`None` when a signal ended it) and its output. */
  datatype ProcessOutput = SpawnFailed | Exited(code: Option<int>, stdout: string, stderr: string)
  {
    predicate Success() { Exited? && code == Some(0) }
  }

  /** `is_dangerous_path`, with the value of `$HOME` passed in: the target
      is "/" or is exactly the home directory. */
  function IsDangerousPath(path: Path, home: Option<Path>): (r: bool)
    ensures path == [] ==> r
    ensures home.None? ==> (r <==> path == [])
    ensures home.Some? && path == home.value ==> r
    ensures r ==> path == [] || home == Some(path)
  {
    path == [] || (home.Some? && path == home.value)
  }

  /** Danger is equality of whole paths: nothing strictly below the home
      directory is dangerous. */
  lemma BelowHomeIsSafe(home: Path, below: Path)
    requires below != []
    ensures !IsDangerousPath(home + below, Some(home))
  {
    assert |home + below| > |home|;
  }

  /** Below "/" only the home directory itself is dangerous. */
  lemma BelowRootIsSafeUnlessHome(path: Path, home: Option<Path>)
    requires path != [] && home != Some(path)
    ensures !IsDangerousPath(path, home)
  {
  }

  const CONFIG_DIR_MISSING: string := "could not determine config directory (set HOME or XDG_CONFIG_HOME)"

  /** `config_dir` on unix, with `$XDG_CONFIG_HOME` and `$HOME` passed in. */
  function ConfigDir(xdgConfigHome: Option<Path>, home: Option<Path>): (r: Result<Path>)
    ensures xdgConfigHome.Some? ==> r == Ok(xdgConfigHome.value + ["templative"])
    ensures xdgConfigHome.None? && home.Some? ==> r == Ok(home.value + [".config", "templative"])
    ensures r.Err? <==> xdgConfigHome.None? && home.None?
    ensures r.Ok? ==> |r.value| > 0 && r.value[|r.value| - 1] == "templative"
  {
    var base := if xdgConfigHome.Some? then xdgConfigHome
      else if home.Some? then Some(home.value + [".config"])
      else None;
    assert home.Some? ==> home.value + [".config"] + ["templative"] == home.value + [".config", "templative"];
    match base
    case Some(path) => Ok(path + ["templative"])
    case None => Err(Message(CONFIG_DIR_MISSING))
  }

  /** `XDG_CONFIG_HOME` wins over `HOME` whatever `HOME` is. */
  lemma XdgTakesPrecedence(xdg: Path, home1: Option<Path>, home2: Option<Path>)
    ensures ConfigDir(Some(xdg), home1) == ConfigDir(Some(xdg), home2)
  {
  }

  /** `is_dir_empty`: `read_dir` fails unless `path` is a directory, and the
      directory is empty when no node sits directly in it. */
  function IsDirEmpty(nodes: map<Path, Node>, path: Path): (r: Result<bool>)
    ensures r.Ok? <==> path in nodes && nodes[path] == Dir
    ensures r.Err? ==> r.error == Context("failed to read directory: " + Display(path), External("io"))
    ensures r == Ok(true) <==> path in nodes && nodes[path] == Dir && forall q :: q in nodes && q != [] ==> Parent(q) != path
  {
    if path !in nodes || nodes[path] != Dir then
      Err(Context("failed to read directory: " + Display(path), External("io")))
    else
      Ok(!exists q :: q in nodes && q != [] && Parent(q) == path)
  }

  /** A directory `create_dir_all` has just made is empty. */
  lemma {:induction false} CreatedDirIsEmpty(nodes: map<Path, Node>, path: Path)
    requires WellFormed(nodes) && DirsCreatable(nodes, path) && path !in nodes
    ensures IsDirEmpty(WithDirs(nodes, path), path) == Ok(true)
  {
    AddDirsSpec(nodes, path, |path|);
    assert path[..|path|] == path;
    var after := WithDirs(nodes, path);
    forall q | q in after && q != [] ensures Parent(q) != path {
      if q !in nodes {
        assert IsPrefix(q, path) && |q| <= |path|;
      }
    }
  }

  /** `run_hook`: the command runs through `sh -c` in the target, with the
      outcome given; failure carries the trimmed standard error. */
  function RunHook(command: string, outcome: ProcessOutput): (r: Result<()>)
    ensures r.Ok? <==> outcome.Success()
    ensures outcome.SpawnFailed? ==> r == Err(Context("failed to execute hook", External("io")))
    ensures outcome.Exited? && !outcome.Success() ==> r == Err(Message("hook failed: " + Trim(outcome.stderr)))
  {
    if outcome.SpawnFailed? then Err(Context("failed to execute hook", External("io")))
    else if !outcome.Success() then Err(Message("hook failed: " + Trim(outcome.stderr)))
    else Ok(())
  }
}
