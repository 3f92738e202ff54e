/** src/ops/add.rs: registering a template under a name. Whether the
    location is a git URL, what caching it gives and what `canonicalize`
    resolves a local path to are parameters. */
module Add {
  import opened Errors
  import opened Text
  import opened FileSystem
  import opened Persist
  import Configuration
  import opened Registry

  /** The default name of a URL template: the last '/'-separated segment of
      the URL without trailing slashes, with every trailing ".git" removed. */
  function DefaultUrlName(url: string): (r: string)
    ensures '/' !in r
    ensures !EndsWith(r, ".git")
  {
    var segment := LastSegment(TrimEndChar(url, '/'), '/');
    var name := TrimEndSuffix(segment, ".git");
    assert forall i :: 0 <= i < |name| ==> name[i] == segment[i];
    name
  }

  /** A trailing slash and a ".git" suffix do not change the default name. */
  lemma DefaultUrlNameIgnoresDecoration(base: string, repo: string)
    requires '/' !in repo && repo != [] && repo[|repo| - 1] != '/' && !EndsWith(repo, ".git")
    ensures DefaultUrlName(base + "/" + repo + ".git/") == repo
    ensures DefaultUrlName(base + "/" + repo) == repo
  {
    var plain := base + "/" + repo;
    var decorated := plain + ".git/";
    assert TrimEndChar(plain + ".git" + "/", '/') == TrimEndChar(plain + ".git", '/') by {
      assert (plain + ".git" + "/")[..|plain + ".git" + "/"| - 1] == plain + ".git";
    }
    assert decorated == plain + ".git" + "/";
    LastSegmentAfter(base, repo + ".git");
    assert base + "/" + (repo + ".git") == plain + ".git";
    assert TrimEndSuffix(repo + ".git", ".git") == TrimEndSuffix(repo, ".git") by {
      assert EndsWith(repo + ".git", ".git");
      assert (repo + ".git")[..|repo + ".git"| - 4] == repo;
    }
    LastSegmentAfter(base, repo);
  }

  /** The segment after the last '/'. */
  lemma LastSegmentAfter(base: string, tail: string)
    requires '/' !in tail && tail != [] && tail[|tail| - 1] != '/'
    ensures TrimEndChar(base + "/" + tail, '/') == base + "/" + tail
    ensures LastSegment(base + "/" + tail, '/') == tail
  {
    var s := base + "/" + tail;
    assert s[|s| - 1] == tail[|tail| - 1];
    assert forall i :: |base| < i < |s| ==> s[i] == tail[i - |base| - 1];
    assert s[|base|] == '/';
    assert s[|base| + 1..] == tail;
  }

  /** The default name of a local template: the last component of its
      canonical path, or "template" for "/". */
  function DefaultLocalName(canonical: Path): (r: string)
    ensures canonical != [] ==> r == canonical[|canonical| - 1]
    ensures canonical == [] ==> r == "template"
  {
    if canonical == [] then "template" else canonical[|canonical| - 1]
  }

  /** What `cmd_add` is asked to register. */
  datatype Request = Request(
    path: string,
    name: Option<string>,
    description: Option<string>,
    git: Option<Configuration.GitMode>,
    gitRef: Option<string>,
    noCache: Option<bool>)

  /** The template `cmd_add` builds before it loads the registry: a URL must
      be cached, a local path must canonicalize. */
  function NewTemplate(req: Request, isGitUrl: bool, ensureCached: Result<Path>, canonical: Option<Path>)
    : (r: Result<Template>)
    ensures isGitUrl && ensureCached.Err? ==> r == Err(ensureCached.error)
    ensures !isGitUrl && canonical.None? ==>
      r == Err(Context("path not found or not absolute: " + req.path, External("io")))
    ensures r.Ok? <==> (if isGitUrl then ensureCached.Ok? else canonical.Some?)
    ensures r.Ok? ==> var t := r.value;
      && t.location == (if isGitUrl then req.path else Display(canonical.value))
      && t.name == (if req.name.Some? then req.name.value
                    else if isGitUrl then DefaultUrlName(req.path)
                    else DefaultLocalName(canonical.value))
      && t.git == req.git && t.description == req.description
      && t.gitRef == req.gitRef && t.noCache == req.noCache
      // Hooks and the commit policy are never set by `add`.
      && t.commit.None? && t.preInit.None? && t.postInit.None?
  {
    var located: Result<(string, string)> :=
      if isGitUrl then
        if ensureCached.Err? then Err(ensureCached.error)
        else Ok((req.path, if req.name.Some? then req.name.value else DefaultUrlName(req.path)))
      else if canonical.None? then
        Err(Context("path not found or not absolute: " + req.path, External("io")))
      else
        Ok((Display(canonical.value), if req.name.Some? then req.name.value else DefaultLocalName(canonical.value)));
    match located
    case Err(e) => Err(e)
    case Ok((location, name)) =>
      Ok(Template(name, location, req.git, req.description, None, None, None, req.gitRef, req.noCache))
  }

  /** `cmd_add`: build the template, load the registry, add it under its
      name and save; the printed line names the template and its location. */
  method CmdAdd(fs: FileSystem, projectDir: Option<Path>, codec: Codec<RegistryData<Template>>,
                req: Request, isGitUrl: bool, ensureCached: Result<Path>, canonical: Option<Path>)
    returns (r: Result<()>, printed: seq<string>)
    requires fs.Valid()
    modifies fs
    ensures fs.Valid()
    ensures var t := NewTemplate(req, isGitUrl, ensureCached, canonical);
      && (t.Err? ==> r == Err(t.error) && fs.nodes == old(fs.nodes))
      && (t.Ok? && !Loadable(old(fs.nodes), projectDir, codec) ==> r.Err?)
      && (t.Ok? && Loadable(old(fs.nodes), projectDir, codec) ==>
            var before := Loaded(old(fs.nodes), projectDir, codec);
            && (t.value.name in before.templates ==>
                  r == Err(Templative(TemplateExists(t.value.name)))
                  // A duplicate leaves an existing registry file as it was.
                  && fs.nodes == AfterLoad(old(fs.nodes), projectDir, codec)
                  && (RegistryPath(projectDir.value) in old(fs.nodes) ==> fs.nodes == old(fs.nodes)))
            // A new name succeeds exactly when the larger registry can be
            // saved, and then that is the only change.
            && (t.value.name !in before.templates ==>
                  var path := RegistryPath(projectDir.value);
                  var contents := codec.encode(RegistryData(before.version, before.templates[t.value.name := t.value]));
                  && (r.Ok? <==> Saveable(AfterLoad(old(fs.nodes), projectDir, codec), path, contents))
                  && (r.Ok? ==> fs.nodes == Saved(AfterLoad(old(fs.nodes), projectDir, codec), path, contents)))
            && (r.Ok? ==>
                  var path := RegistryPath(projectDir.value);
                  && t.value.name !in before.templates
                  && path in fs.nodes
                  && fs.nodes[path] == File(codec.encode(
                       RegistryData(before.version, before.templates[t.value.name := t.value])))))
    // Nothing but the registry file and its temporary sibling ever changes.
    ensures projectDir.Some? ==> OnlySaveTouched(old(fs.nodes), fs.nodes, RegistryPath(projectDir.value))
    ensures r.Ok? <==> printed != []
    ensures r.Ok? ==> var t := NewTemplate(req, isGitUrl, ensureCached, canonical).value;
      printed == ["added " + t.name + " -> " + t.location]
  {
    printed := [];
    var made := NewTemplate(req, isGitUrl, ensureCached, canonical);
    if made.Err? {
      return Err(made.error), printed;
    }
    var template := made.value;
    var loaded := Load(fs, projectDir, codec);
    if loaded.Err? {
      return Err(loaded.error), printed;
    }
    var registry := loaded.value;
    var added := registry.Add(template.name, template);
    if added.Err? {
      return Err(added.error), printed;
    }
    var saved := Save(registry, fs, projectDir, codec);
    if saved.Err? {
      return Err(saved.error), printed;
    }
    r, printed := Ok(()), ["added " + template.name + " -> " + template.location];
  }
}
